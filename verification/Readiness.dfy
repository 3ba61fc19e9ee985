/** Startup readiness: observed subscribes, folded into names batch by batch while
    the child table changes, and the tier that waits on them. */
module Readiness {
  import opened Options
  import opened Sorting

  const UNATTRIBUTED_CAP: nat := 64

  // ---------------------------------------------------------------------
  // The ledger
  // ---------------------------------------------------------------------

  datatype Subscriber = Named(name: string) | Pid(pid: nat) | Anonymous

  type Children = map<nat, string>

  datatype Ledger = Ledger(confirmed: set<string>, unattributed: seq<Subscriber>)

  function Attribute(s: Subscriber, children: Children): Option<string> {
    match s
    case Named(name) => Some(name)
    case Pid(pid) => if pid in children then Some(children[pid]) else None
    case Anonymous => None
  }

  /** The names the table gives to some observations. */
  function Names(items: seq<Subscriber>, children: Children): set<string> {
    if items == [] then {}
    else
      var who := Attribute(items[0], children);
      (if who.Some? then {who.value} else {}) + Names(items[1..], children)
  }

  /** The observations the table cannot name, in order. */
  function Unknown(items: seq<Subscriber>, children: Children): (r: seq<Subscriber>)
    ensures |r| <= |items|
  {
    if items == [] then []
    else (if Attribute(items[0], children).None? then [items[0]] else []) + Unknown(items[1..], children)
  }

  function First<T>(s: seq<T>, n: nat): (r: seq<T>)
    ensures |r| <= n
  {
    if |s| <= n then s else s[..n]
  }

  function Rest<T>(s: seq<T>, n: nat): seq<T> { if |s| <= n then [] else s[n..] }

  /** What a fold amounts to: every observation the table can name, backlog first,
      is confirmed, and the first 64 it cannot name are kept. */
  function Absorbed(l: Ledger, observed: seq<Subscriber>, children: Children): Ledger {
    var items := l.unattributed + observed;
    Ledger(l.confirmed + Names(items, children), First(Unknown(items, children), UNATTRIBUTED_CAP))
  }

  /** The observations a fold lets go of for good. */
  function Dropped(l: Ledger, observed: seq<Subscriber>, children: Children): seq<Subscriber> {
    Rest(Unknown(l.unattributed + observed, children), UNATTRIBUTED_CAP)
  }

  lemma {:induction false} UnknownOfSum(a: seq<Subscriber>, b: seq<Subscriber>, children: Children)
    ensures Unknown(a + b, children) == Unknown(a, children) + Unknown(b, children)
  {
    if a == [] {
      assert a + b == b;
    } else {
      assert (a + b)[1..] == a[1..] + b;
      UnknownOfSum(a[1..], b, children);
      hide Attribute;
      var head := if Attribute(a[0], children).None? then [a[0]] else [];
      assert head + (Unknown(a[1..], children) + Unknown(b, children))
          == (head + Unknown(a[1..], children)) + Unknown(b, children);
    }
  }

  lemma {:induction false} NamesOfSum(a: seq<Subscriber>, b: seq<Subscriber>, children: Children)
    ensures Names(a + b, children) == Names(a, children) + Names(b, children)
  {
    if a == [] {
      assert a + b == b;
    } else {
      assert (a + b)[1..] == a[1..] + b;
      NamesOfSum(a[1..], b, children);
    }
  }

  method Absorb(l: Ledger, observed: seq<Subscriber>, children: Children) returns (r: Ledger)
    ensures r == Absorbed(l, observed, children)
  {
    var confirmed := l.confirmed;
    var still: seq<Subscriber> := [];
    var items := l.unattributed + observed;
    for i := 0 to |items|
      invariant confirmed == l.confirmed + Names(items[..i], children)
      invariant still == First(Unknown(items[..i], children), UNATTRIBUTED_CAP)
    {
      assert items[..i + 1] == items[..i] + [items[i]];
      NamesOfSum(items[..i], [items[i]], children);
      UnknownOfSum(items[..i], [items[i]], children);
      match Attribute(items[i], children) {
        case Some(name) => confirmed := confirmed + {name};
        case None =>
          if |still| < UNATTRIBUTED_CAP {
            still := still + [items[i]];
          }
      }
    }
    assert items[..|items|] == items;
    r := Ledger(confirmed, still);
  }

  // ---------------------------------------------------------------------
  // What one fold confirms and keeps
  // ---------------------------------------------------------------------

  /** The observation tells of this primitive: it names it, or it has a pid that the
      table gives this name. */
  predicate TellsOf(s: Subscriber, children: Children, name: string) {
    s == Named(name) || (s.Pid? && s.pid in children && children[s.pid] == name)
  }

  /** The observation tells of nobody: it has neither, or a pid the table has not. */
  predicate Nameless(s: Subscriber, children: Children) {
    s == Anonymous || (s.Pid? && s.pid !in children)
  }

  lemma {:induction false} NamesAreTold(items: seq<Subscriber>, children: Children, name: string)
    ensures name in Names(items, children) <==> exists i :: 0 <= i < |items| && TellsOf(items[i], children, name)
  {
    if items != [] {
      var rest := items[1..];
      NamesAreTold(rest, children, name);
      if i :| 0 <= i < |rest| && TellsOf(rest[i], children, name) {
        assert TellsOf(items[i + 1], children, name);
      }
      if i :| 0 <= i < |items| && TellsOf(items[i], children, name) {
        assert i > 0 ==> TellsOf(rest[i - 1], children, name);
      }
    }
  }

  /** Which of the first i observations tell of nobody. */
  ghost function NamelessBefore(items: seq<Subscriber>, children: Children, i: nat): set<nat>
    requires i <= |items|
  {
    set j: nat | j < i && Nameless(items[j], children)
  }

  lemma NamelessOneMore(items: seq<Subscriber>, children: Children, i: nat)
    requires i < |items|
    ensures |NamelessBefore(items, children, i + 1)|
         == |NamelessBefore(items, children, i)| + if Nameless(items[i], children) then 1 else 0
  {
    var before := NamelessBefore(items, children, i);
    hide Nameless;
    assert NamelessBefore(items, children, i + 1) == if Nameless(items[i], children) then before + {i} else before;
  }

  lemma UnknownOfOne(s: Subscriber, children: Children)
    ensures Unknown([s], children) == if Nameless(s, children) then [s] else []
  {
    assert [s][1..] == [];
  }

  lemma {:induction false} UnknownCount(items: seq<Subscriber>, children: Children, i: nat)
    requires i <= |items|
    ensures |Unknown(items[..i], children)| == |NamelessBefore(items, children, i)|
  {
    if i == 0 {
      assert items[..0] == [] && NamelessBefore(items, children, 0) == {};
    } else {
      UnknownCount(items, children, i - 1);
      NamelessOneMore(items, children, i - 1);
      assert items[..i] == items[..i - 1] + [items[i - 1]];
      hide NamelessBefore, Nameless;
      UnknownOfSum(items[..i - 1], [items[i - 1]], children);
      UnknownOfOne(items[i - 1], children);
    }
  }

  lemma UnknownPlace(items: seq<Subscriber>, children: Children, i: nat)
    requires i < |items| && Nameless(items[i], children)
    ensures var place := |NamelessBefore(items, children, i)|;
      place < |Unknown(items, children)| && Unknown(items, children)[place] == items[i]
  {
    UnknownCount(items, children, i);
    assert items == items[..i] + [items[i]] + items[i + 1..];
    hide NamelessBefore, Nameless;
    UnknownOfSum(items[..i], [items[i]], children);
    UnknownOfSum(items[..i] + [items[i]], items[i + 1..], children);
    UnknownOfOne(items[i], children);
  }

  /** What a fold confirms and keeps, told on the observations, the backlog first: it
      confirms exactly the names it had and those that some observation tells of; and it
      keeps the first 64 of those that tell of nobody, in order. */
  lemma FoldsByTheObservations(l: Ledger, observed: seq<Subscriber>, children: Children)
    ensures var items, r := l.unattributed + observed, Absorbed(l, observed, children);
      && (forall name :: name in r.confirmed <==>
            name in l.confirmed || exists i :: 0 <= i < |items| && TellsOf(items[i], children, name))
      && |r.unattributed| == Least(64, |set j: nat | j < |items| && Nameless(items[j], children)|)
      && forall i :: 0 <= i < |items| && Nameless(items[i], children) ==>
           var place := |set j: nat | j < i && Nameless(items[j], children)|;
           place < 64 ==> place < |r.unattributed| && r.unattributed[place] == items[i]
  {
    var items, r := l.unattributed + observed, Absorbed(l, observed, children);
    forall name
      ensures name in r.confirmed <==>
        name in l.confirmed || exists i :: 0 <= i < |items| && TellsOf(items[i], children, name)
    {
      NamesAreTold(items, children, name);
    }
    UnknownCount(items, children, |items|);
    assert items[..|items|] == items;
    hide Unknown, Names, Nameless, TellsOf;
    forall i | 0 <= i < |items| && Nameless(items[i], children)
      ensures var place := |NamelessBefore(items, children, i)|;
        place < 64 ==> place < |r.unattributed| && r.unattributed[place] == items[i]
    {
      UnknownPlace(items, children, i);
    }
  }

  function Least(a: nat, b: nat): nat { if a < b then a else b }

  // ---------------------------------------------------------------------
  // Batching does not matter
  // ---------------------------------------------------------------------

  /** A table that has grown: every pid keeps its name. */
  predicate Grown(before: Children, after: Children) {
    forall pid :: pid in before ==> pid in after && after[pid] == before[pid]
  }

  lemma {:induction false} RetryKeepsUnknown(items: seq<Subscriber>, before: Children, after: Children)
    requires Grown(before, after)
    ensures Unknown(Unknown(items, before), after) == Unknown(items, after)
  {
    if items != [] {
      RetryKeepsUnknown(items[1..], before, after);
      UnknownOfSum(if Attribute(items[0], before).None? then [items[0]] else [], Unknown(items[1..], before), after);
    }
  }

  lemma {:induction false} RetryAddsTheRest(items: seq<Subscriber>, before: Children, after: Children)
    requires Grown(before, after)
    ensures Names(items, after) == Names(items, before) + Names(Unknown(items, before), after)
  {
    if items != [] {
      RetryAddsTheRest(items[1..], before, after);
      NamesOfSum(if Attribute(items[0], before).None? then [items[0]] else [], Unknown(items[1..], before), after);
    }
  }

  lemma {:induction false} UnknownAreUnnamed(items: seq<Subscriber>, children: Children)
    requires Unknown(items, children) == items
    ensures Names(items, children) == {}
  {
    if items != [] {
      UnknownAreUnnamed(items[1..], children);
    }
  }

  lemma {:induction false} UnknownOfPart(items: seq<Subscriber>, children: Children, n: nat)
    requires Unknown(items, children) == items && n <= |items|
    ensures Unknown(items[..n], children) == items[..n]
  {
    if items != [] && n > 0 {
      assert items[..n][1..] == items[1..][..n - 1];
      UnknownOfPart(items[1..], children, n - 1);
      assert items[..n] == [items[0]] + items[1..][..n - 1];
    }
  }

  /** Folding two batches with one table is folding them together, the cap on the
      backlog included. */
  lemma BatchesFoldAsOne(l: Ledger, a: seq<Subscriber>, b: seq<Subscriber>, children: Children)
    ensures Absorbed(Absorbed(l, a, children), b, children) == Absorbed(l, a + b, children)
  {
    var items := l.unattributed + a;
    var unknown := Unknown(items, children);
    var kept := First(unknown, UNATTRIBUTED_CAP);
    assert l.unattributed + (a + b) == items + b;
    RetryKeepsUnknown(items, children, children);
    RetryAddsTheRest(items, children, children);
    UnknownAreUnnamed(unknown, children);
    UnknownOfPart(unknown, children, |kept|);
    UnknownAreUnnamed(kept, children);
    UnknownOfSum(kept, b, children);
    UnknownOfSum(items, b, children);
    NamesOfSum(kept, b, children);
    NamesOfSum(items, b, children);
    hide Unknown, Names;
    assert First(kept + Unknown(b, children), UNATTRIBUTED_CAP)
        == First(unknown + Unknown(b, children), UNATTRIBUTED_CAP);
  }

  /** One poll's observations, with the child table it folded them with. */
  datatype Batch = Batch(observed: seq<Subscriber>, children: Children)

  function AbsorbAll(l: Ledger, batches: seq<Batch>): Ledger
    decreases |batches|
  {
    if batches == [] then l
    else AbsorbAll(Absorbed(l, batches[0].observed, batches[0].children), batches[1..])
  }

  function AllDropped(l: Ledger, batches: seq<Batch>): seq<Subscriber>
    decreases |batches|
  {
    if batches == [] then []
    else
      Dropped(l, batches[0].observed, batches[0].children)
      + AllDropped(Absorbed(l, batches[0].observed, batches[0].children), batches[1..])
  }

  function AllObserved(batches: seq<Batch>): seq<Subscriber>
    decreases |batches|
  {
    if batches == [] then [] else batches[0].observed + AllObserved(batches[1..])
  }

  /** Any number of batches with one table fold as their concatenation. */
  lemma {:induction false} AnyBatchesFoldAsOne(l: Ledger, batches: seq<Batch>, children: Children)
    requires batches != [] && forall k :: 0 <= k < |batches| ==> batches[k].children == children
    ensures AbsorbAll(l, batches) == Absorbed(l, AllObserved(batches), children)
    decreases |batches|
  {
    var first := Absorbed(l, batches[0].observed, children);
    hide Absorbed;
    if |batches| == 1 {
      assert batches[0].observed + [] == batches[0].observed;
      assert AllObserved(batches[1..]) == [] && AbsorbAll(first, batches[1..]) == first;
    } else {
      AnyBatchesFoldAsOne(first, batches[1..], children);
      BatchesFoldAsOne(l, batches[0].observed, AllObserved(batches[1..]), children);
    }
  }

  // ---------------------------------------------------------------------
  // A growing table
  // ---------------------------------------------------------------------

  lemma OneFoldLosesOnlyTheDropped(l: Ledger, observed: seq<Subscriber>, children: Children, last: Children)
    requires Grown(children, last)
    ensures var next := Absorbed(l, observed, children);
      l.confirmed + Names(l.unattributed + observed, last)
        == next.confirmed + Names(next.unattributed, last) + Names(Dropped(l, observed, children), last)
  {
    var items := l.unattributed + observed;
    var unknown := Unknown(items, children);
    RetryAddsTheRest(items, children, last);
    NamesOfSum(First(unknown, UNATTRIBUTED_CAP), Rest(unknown, UNATTRIBUTED_CAP), last);
    assert First(unknown, UNATTRIBUTED_CAP) + Rest(unknown, UNATTRIBUTED_CAP) == unknown;
  }

  /** Whatever the batches and the tables they were folded with, as long as each
      table grew into the last: what one look with the last table would confirm is
      what was confirmed, is still to be retried, or was dropped. */
  lemma {:induction false} FoldsLoseOnlyTheDropped(l: Ledger, batches: seq<Batch>, last: Children)
    requires forall k :: 0 <= k < |batches| ==> Grown(batches[k].children, last)
    ensures var end := AbsorbAll(l, batches);
      l.confirmed + Names(l.unattributed + AllObserved(batches), last)
        == end.confirmed + Names(end.unattributed, last) + Names(AllDropped(l, batches), last)
    decreases |batches|
  {
    if batches == [] {
      assert l.unattributed + [] == l.unattributed;
    } else {
      var b, rest := batches[0], AllObserved(batches[1..]);
      var next := Absorbed(l, b.observed, b.children);
      var end, later := AbsorbAll(l, batches), AllDropped(next, batches[1..]);
      var now := Dropped(l, b.observed, b.children);
      assert end == AbsorbAll(next, batches[1..]) && AllDropped(l, batches) == now + later;
      assert l.unattributed + AllObserved(batches) == (l.unattributed + b.observed) + rest;
      hide Absorbed, Dropped, Names, AbsorbAll, AllDropped, AllObserved, Grown;
      OneFoldLosesOnlyTheDropped(l, b.observed, b.children, last);
      FoldsLoseOnlyTheDropped(next, batches[1..], last);
      NamesOfSum(next.unattributed, rest, last);
      NamesOfSum(l.unattributed + b.observed, rest, last);
      NamesOfSum(now, later, last);
      Regroup(l.confirmed, Names(l.unattributed + b.observed, last), Names(rest, last),
              next.confirmed, Names(next.unattributed, last), Names(now, last),
              end.confirmed + Names(end.unattributed, last), Names(later, last));
    }
  }

  lemma Regroup(c0: set<string>, n0: set<string>, r: set<string>, c1: set<string>, n1: set<string>,
                d: set<string>, e: set<string>, dd: set<string>)
    requires c0 + n0 == c1 + n1 + d && c1 + (n1 + r) == e + dd
    ensures c0 + (n0 + r) == e + (d + dd)
  {
    assert c0 + (n0 + r) == (c0 + n0) + r;
    assert (c1 + n1 + d) + r == (c1 + (n1 + r)) + d;
  }

  /** After at least one batch the backlog holds nothing the last table can name. */
  lemma {:induction false} BacklogStaysUnknown(l: Ledger, batches: seq<Batch>)
    requires batches != []
    ensures var end := AbsorbAll(l, batches);
      Unknown(end.unattributed, batches[|batches| - 1].children) == end.unattributed
    decreases |batches|
  {
    var b := batches[0];
    var next := Absorbed(l, b.observed, b.children);
    if |batches| == 1 {
      var unknown := Unknown(l.unattributed + b.observed, b.children);
      RetryKeepsUnknown(l.unattributed + b.observed, b.children, b.children);
      UnknownOfPart(unknown, b.children, |next.unattributed|);
      assert AbsorbAll(next, batches[1..]) == next;
    } else {
      hide Absorbed;
      BacklogStaysUnknown(next, batches[1..]);
    }
  }

  // ---------------------------------------------------------------------
  // When batching loses nothing
  // ---------------------------------------------------------------------

  const EMPTY := Ledger({}, [])

  /** The observations the table can name, in order. */
  function Known(items: seq<Subscriber>, children: Children): seq<Subscriber> {
    if items == [] then []
    else (if Attribute(items[0], children).Some? then [items[0]] else []) + Known(items[1..], children)
  }

  /** The observations that some fold named. */
  function AllNamed(l: Ledger, batches: seq<Batch>): seq<Subscriber>
    decreases |batches|
  {
    if batches == [] then []
    else
      Known(l.unattributed + batches[0].observed, batches[0].children)
      + AllNamed(Absorbed(l, batches[0].observed, batches[0].children), batches[1..])
  }

  /** The observations that were never dropped: named by some fold, or waiting still. */
  function Survivors(batches: seq<Batch>): seq<Subscriber> {
    AllNamed(EMPTY, batches) + AbsorbAll(EMPTY, batches).unattributed
  }

  lemma CountFirst(x: Subscriber, rest: seq<Subscriber>, known: seq<Subscriber>, unknown: seq<Subscriber>, named: bool)
    requires multiset(rest) == multiset(known) + multiset(unknown)
    ensures multiset([x] + rest)
         == multiset((if named then [x] else []) + known) + multiset((if !named then [x] else []) + unknown)
  {
  }

  lemma {:induction false} KnownAndUnknown(items: seq<Subscriber>, children: Children)
    ensures multiset(items) == multiset(Known(items, children)) + multiset(Unknown(items, children))
  {
    if items != [] {
      var x, rest := items[0], items[1..];
      KnownAndUnknown(rest, children);
      var known, unknown := Known(rest, children), Unknown(rest, children);
      var named := Attribute(x, children).Some?;
      assert Known(items, children) == (if named then [x] else []) + known;
      assert Unknown(items, children) == (if !named then [x] else []) + unknown;
      hide Attribute, Known, Unknown;
      CountFirst(x, rest, known, unknown, named);
      assert [x] + rest == items;
    }
  }

  lemma {:induction false} KnownKeepTheirNames(items: seq<Subscriber>, children: Children, last: Children)
    requires Grown(children, last)
    ensures Names(Known(items, children), last) == Names(items, children)
  {
    if items != [] {
      KnownKeepTheirNames(items[1..], children, last);
      var head := if Attribute(items[0], children).Some? then [items[0]] else [];
      NamesOfSum(head, Known(items[1..], children), last);
    }
  }

  lemma {:induction false} ConfirmedWereNamed(l: Ledger, batches: seq<Batch>, last: Children)
    requires forall k :: 0 <= k < |batches| ==> Grown(batches[k].children, last)
    ensures AbsorbAll(l, batches).confirmed == l.confirmed + Names(AllNamed(l, batches), last)
    decreases |batches|
  {
    if batches != [] {
      var items, c := l.unattributed + batches[0].observed, batches[0].children;
      var next := Absorbed(l, batches[0].observed, c);
      ConfirmedWereNamed(next, batches[1..], last);
      KnownKeepTheirNames(items, c, last);
      NamesOfSum(Known(items, c), AllNamed(next, batches[1..]), last);
      hide Grown, Known, Unknown;
    }
  }

  lemma FoldAccountsForEach(l: Ledger, observed: seq<Subscriber>, children: Children)
    ensures multiset(l.unattributed + observed)
         == multiset(Known(l.unattributed + observed, children))
          + multiset(Absorbed(l, observed, children).unattributed)
          + multiset(Dropped(l, observed, children))
  {
    var unknown := Unknown(l.unattributed + observed, children);
    KnownAndUnknown(l.unattributed + observed, children);
    hide Known, Unknown;
    assert unknown == First(unknown, UNATTRIBUTED_CAP) + Rest(unknown, UNATTRIBUTED_CAP);
  }

  /** Every observation is named by some fold, waits still, or was dropped, and just
      one of the three. */
  lemma {:induction false} EveryObservationIsAccountedFor(l: Ledger, batches: seq<Batch>)
    ensures multiset(l.unattributed + AllObserved(batches))
         == multiset(AllNamed(l, batches)) + multiset(AbsorbAll(l, batches).unattributed)
          + multiset(AllDropped(l, batches))
    decreases |batches|
  {
    if batches == [] {
      assert l.unattributed + [] == l.unattributed;
    } else {
      var b := batches[0];
      var next := Absorbed(l, b.observed, b.children);
      EveryObservationIsAccountedFor(next, batches[1..]);
      FoldAccountsForEach(l, b.observed, b.children);
      hide Absorbed, Known, Dropped;
      FirstBatchRecounts(l, batches, next);
    }
  }

  lemma FirstBatchRecounts(l: Ledger, batches: seq<Batch>, next: Ledger)
    requires batches != [] && next == Absorbed(l, batches[0].observed, batches[0].children)
    requires multiset(l.unattributed + batches[0].observed)
          == multiset(Known(l.unattributed + batches[0].observed, batches[0].children)) + multiset(next.unattributed)
           + multiset(Dropped(l, batches[0].observed, batches[0].children))
    requires multiset(next.unattributed + AllObserved(batches[1..]))
          == multiset(AllNamed(next, batches[1..])) + multiset(AbsorbAll(next, batches[1..]).unattributed)
           + multiset(AllDropped(next, batches[1..]))
    ensures multiset(l.unattributed + AllObserved(batches))
         == multiset(AllNamed(l, batches)) + multiset(AbsorbAll(l, batches).unattributed)
          + multiset(AllDropped(l, batches))
  {
    hide Known, Dropped, Absorbed;
    var b, rest := batches[0], AllObserved(batches[1..]);
    var items, more := l.unattributed + b.observed, AllNamed(next, batches[1..]);
    var known, now := Known(items, b.children), Dropped(l, b.observed, b.children);
    var end, later := AbsorbAll(next, batches[1..]).unattributed, AllDropped(next, batches[1..]);
    UnfoldFirst(l, batches, next);
    hide AllObserved, AllNamed, AbsorbAll, AllDropped;
    Recount(items, rest, known, next.unattributed, now, more, end, later);
  }

  lemma UnfoldFirst(l: Ledger, batches: seq<Batch>, next: Ledger)
    requires batches != [] && next == Absorbed(l, batches[0].observed, batches[0].children)
    ensures var b := batches[0];
      && l.unattributed + AllObserved(batches) == (l.unattributed + b.observed) + AllObserved(batches[1..])
      && AllNamed(l, batches) == Known(l.unattributed + b.observed, b.children) + AllNamed(next, batches[1..])
      && AbsorbAll(l, batches) == AbsorbAll(next, batches[1..])
      && AllDropped(l, batches) == Dropped(l, b.observed, b.children) + AllDropped(next, batches[1..])
  {
    hide Known, Dropped, Absorbed;
  }

  lemma Recount(items: seq<Subscriber>, rest: seq<Subscriber>, known: seq<Subscriber>, kept: seq<Subscriber>,
                now: seq<Subscriber>, more: seq<Subscriber>, end: seq<Subscriber>, later: seq<Subscriber>)
    requires multiset(items) == multiset(known) + multiset(kept) + multiset(now)
    requires multiset(kept + rest) == multiset(more) + multiset(end) + multiset(later)
    ensures multiset(items + rest) == multiset(known + more) + multiset(end) + multiset(now + later)
  {
    assert multiset(kept + rest) == multiset(kept) + multiset(rest);
    forall x
      ensures multiset(items + rest)[x] == (multiset(known + more) + multiset(end) + multiset(now + later))[x]
    {
      assert multiset(items + rest)[x] == multiset(items)[x] + multiset(rest)[x];
      assert (multiset(kept) + multiset(rest))[x] == (multiset(more) + multiset(end) + multiset(later))[x];
    }
  }

  /** Polling in batches ends with exactly the names that one look at everything with
      the final table would confirm if, and only if, each name that table gives to a
      dropped observation it also gives to one that was never dropped. */
  lemma BatchedPollsConfirmEverything(batches: seq<Batch>)
    requires batches != []
    requires forall k :: 0 <= k < |batches| ==> Grown(batches[k].children, batches[|batches| - 1].children)
    ensures var last := batches[|batches| - 1].children;
      (AbsorbAll(EMPTY, batches).confirmed == Names(AllObserved(batches), last))
        <==> (Names(AllDropped(EMPTY, batches), last) <= Names(Survivors(batches), last))
  {
    var last := batches[|batches| - 1].children;
    var end := AbsorbAll(EMPTY, batches);
    FoldsLoseOnlyTheDropped(EMPTY, batches, last);
    BacklogStaysUnknown(EMPTY, batches);
    UnknownAreUnnamed(end.unattributed, last);
    ConfirmedWereNamed(EMPTY, batches, last);
    NamesOfSum(AllNamed(EMPTY, batches), end.unattributed, last);
    assert [] + AllObserved(batches) == AllObserved(batches);
    hide Names, AbsorbAll, AllObserved, AllDropped, AllNamed;
  }

  /** Each table grew into every later one. */
  ghost predicate Growing(batches: seq<Batch>) {
    forall i, j :: 0 <= i <= j < |batches| ==> Grown(batches[i].children, batches[j].children)
  }

  /** At no poll have more than 64 of the observations so far been unknown to the
      table of that poll. */
  ghost predicate Roomy(before: seq<Subscriber>, batches: seq<Batch>)
    decreases |batches|
  {
    batches == [] ||
      var seen := before + batches[0].observed;
      |Unknown(seen, batches[0].children)| <= UNATTRIBUTED_CAP && Roomy(seen, batches[1..])
  }

  lemma {:induction false} RoomyDropsNothing(l: Ledger, before: seq<Subscriber>, batches: seq<Batch>)
    requires Growing(batches)
    requires batches != [] ==> Unknown(before, batches[0].children) == Unknown(l.unattributed, batches[0].children)
    ensures Roomy(before, batches) <==> AllDropped(l, batches) == []
    decreases |batches|
  {
    if batches != [] {
      var b := batches[0];
      var seen := before + b.observed;
      UnknownOfSum(before, b.observed, b.children);
      UnknownOfSum(l.unattributed, b.observed, b.children);
      var unknown := Unknown(seen, b.children);
      var next := Absorbed(l, b.observed, b.children);
      if |unknown| <= UNATTRIBUTED_CAP {
        assert next.unattributed == unknown && Dropped(l, b.observed, b.children) == [];
        assert [] + AllDropped(next, batches[1..]) == AllDropped(next, batches[1..]);
        if |batches| > 1 {
          assert Grown(b.children, batches[1].children);
          RetryKeepsUnknown(seen, b.children, batches[1].children);
        }
        hide Grown, Absorbed, Unknown;
        assert forall i :: 0 <= i < |batches[1..]| ==> batches[1..][i] == batches[i + 1];
        RoomyDropsNothing(next, seen, batches[1..]);
      }
    }
  }

  /** With a growing table, nothing is ever dropped exactly when no poll has more than
      64 unknown observations behind it; and then batched polling confirms everything. */
  lemma RoomyPollsConfirmEverything(batches: seq<Batch>)
    requires batches != [] && Growing(batches)
    ensures Roomy([], batches) <==> AllDropped(EMPTY, batches) == []
    ensures Roomy([], batches) ==>
      AbsorbAll(EMPTY, batches).confirmed == Names(AllObserved(batches), batches[|batches| - 1].children)
  {
    RoomyDropsNothing(EMPTY, [], batches);
    BatchedPollsConfirmEverything(batches);
    hide AbsorbAll, AllObserved, AllDropped, Roomy, Survivors;
    assert Names([], batches[|batches| - 1].children) == {};
  }

  // ---------------------------------------------------------------------
  // When it loses a name
  // ---------------------------------------------------------------------

  function Strangers(n: nat): seq<Subscriber> { seq(n, i requires 0 <= i < n => Pid(i)) }

  lemma {:induction false} NobodyKnows(items: seq<Subscriber>, children: Children)
    requires forall i :: 0 <= i < |items| ==> Attribute(items[i], children).None?
    ensures Unknown(items, children) == items && Names(items, children) == {}
  {
    hide Attribute;
    if items != [] {
      NobodyKnows(items[1..], children);
    }
  }

  lemma StrangersFillTheBacklog(n: nat)
    requires n == UNATTRIBUTED_CAP
    ensures Absorbed(EMPTY, Strangers(n + 1), map[]) == Ledger({}, Strangers(n))
    ensures |Unknown([] + Strangers(n + 1), map[])| == n + 1
  {
    NobodyKnows(Strangers(n + 1), map[]);
    hide Unknown, Names;
    assert [] + Strangers(n + 1) == Strangers(n + 1) && Strangers(n + 1)[..n] == Strangers(n);
  }

  lemma TheBacklogStaysUnknown(n: nat, name: string)
    requires n == UNATTRIBUTED_CAP
    ensures Absorbed(Ledger({}, Strangers(n)), [], map[n := name]) == Ledger({}, Strangers(n))
    ensures Names(Strangers(n + 1) + [], map[n := name]) == {name}
  {
    NobodyKnows(Strangers(n), map[n := name]);
    NamesOfSum(Strangers(n), [Pid(n)], map[n := name]);
    assert Names([Pid(n)], map[n := name]) == {name} + Names([], map[n := name]);
    hide Unknown, Names;
    assert Strangers(n) + [] == Strangers(n) && Strangers(n + 1) + [] == Strangers(n) + [Pid(n)];
  }

  /** As many unknown pids as the backlog holds and one more, and then a table that
      names the last of them: one look confirms it, and two polls lose it for good. */
  lemma OverflowLosesAName(n: nat, name: string) returns (batches: seq<Batch>)
    requires n == UNATTRIBUTED_CAP
    ensures batches == [Batch(Strangers(n + 1), map[]), Batch([], map[n := name])] && Growing(batches)
    ensures AbsorbAll(EMPTY, batches).confirmed == {} && !Roomy([], batches)
    ensures Names(AllObserved(batches), map[n := name]) == {name}
  {
    var first, last: Batch := Batch(Strangers(n + 1), map[]), Batch([], map[n := name]);
    batches := [first, last];
    StrangersFillTheBacklog(n);
    TheBacklogStaysUnknown(n, name);
    hide Absorbed, Unknown, Names, Strangers;
    assert !Roomy([], batches) by {
      var seen := [] + batches[0].observed;
      assert |Unknown(seen, batches[0].children)| == n + 1;
    }
    assert batches[1..] == [last] && [last][1..] == [];
    assert AllObserved([last]) == [] + [] == [];
    var full := Ledger({}, Strangers(n));
    assert AbsorbAll(full, [last]) == AbsorbAll(full, []) == full;
  }

  // ---------------------------------------------------------------------
  // The tier
  // ---------------------------------------------------------------------

  datatype Evidence = Subscribed | Waiting | NotRunning

  function Classify(running: bool, confirmed: bool): Evidence {
    if confirmed then Subscribed else if running then Waiting else NotRunning
  }

  /** A primitive of the tier as the process manager reports it. */
  datatype Primitive = Primitive(name: string, subscribes: bool, running: bool)

  datatype Member = Member(name: string, declaresSubscriptions: bool, evidence: Evidence)

  datatype Verdict = Verdict(ready: bool, waitingOn: seq<string>)

  function Members(tier: seq<Primitive>, confirmed: set<string>): seq<Member> {
    seq(|tier|, i requires 0 <= i < |tier| =>
      Member(tier[i].name, tier[i].subscribes, Classify(tier[i].running, tier[i].name in confirmed)))
  }

  predicate Holds(m: Member) { m.declaresSubscriptions && m.evidence == Waiting }

  function Holding(members: seq<Member>): seq<string> {
    if members == [] then []
    else (if Holds(members[0]) then [members[0].name] else []) + Holding(members[1..])
  }

  function EvaluateTier(members: seq<Member>): Verdict {
    var waitingOn := Sort(Holding(members), StringLeq);
    Verdict(waitingOn == [], waitingOn)
  }

  lemma {:induction false} HoldingNames(members: seq<Member>, name: string)
    ensures name in Holding(members) <==> exists i :: 0 <= i < |members| && Holds(members[i]) && members[i].name == name
  {
    if members != [] {
      HoldingNames(members[1..], name);
      if i :| 0 <= i < |members| && Holds(members[i]) && members[i].name == name {
        assert i > 0 ==> members[1..][i - 1] == members[i];
      }
      if i :| 0 <= i < |members| - 1 && Holds(members[1..][i]) && members[1..][i].name == name {
        assert members[i + 1] == members[1..][i];
      }
    }
  }

  /** The tier waits on exactly its running primitives that subscribe to something
      and have not been heard from, listed in order; it is ready when there is none. */
  lemma TierWaitsOnTheUnheard(tier: seq<Primitive>, confirmed: set<string>, name: string)
    ensures var v := EvaluateTier(Members(tier, confirmed));
      && (name in v.waitingOn <==>
            name !in confirmed
            && exists i :: 0 <= i < |tier| && tier[i].name == name && tier[i].subscribes && tier[i].running)
      && Ascending(v.waitingOn, StringLeq) && (v.ready <==> v.waitingOn == [])
  {
    var members := Members(tier, confirmed);
    HoldingNames(members, name);
    StringsAreOrdered();
    SortSorts(Holding(members), StringLeq);
    assert name in Sort(Holding(members), StringLeq) <==> name in multiset(Holding(members));
    hide Holding, Sort, StringLeq;
    if i :| 0 <= i < |members| && Holds(members[i]) && members[i].name == name {
      assert tier[i].name == name;
    }
    if name !in confirmed {
      if i :| 0 <= i < |tier| && tier[i].name == name && tier[i].subscribes && tier[i].running {
        assert Holds(members[i]);
      }
    }
  }

  lemma {:induction false} HoldingOfSum(a: seq<Member>, b: seq<Member>)
    ensures Holding(a + b) == Holding(a) + Holding(b)
  {
    if a == [] {
      assert a + b == b;
    } else {
      assert (a + b)[1..] == a[1..] + b;
      HoldingOfSum(a[1..], b);
    }
  }

  lemma HoldingOfThree(p: seq<Member>, x: seq<Member>, q: seq<Member>)
    ensures multiset(Holding(p + x + q)) == multiset(Holding(x)) + multiset(Holding(p + q))
  {
    hide Holding;
    HoldingOfSum(p, q);
    HoldingOfSum(p, x);
    HoldingOfSum(p + x, q);
  }

  lemma HoldingOfOthers(members: seq<Member>, i: nat)
    requires i < |members|
    ensures multiset(Holding(members))
         == multiset(Holding([members[i]])) + multiset(Holding(members[..i] + members[i + 1..]))
  {
    hide Holding;
    HoldingOfThree(members[..i], [members[i]], members[i + 1..]);
    assert members == members[..i] + [members[i]] + members[i + 1..];
  }

  lemma OthersMatch(a: seq<Member>, b: seq<Member>, i: nat)
    requires multiset(a) == multiset(b) && a != [] && i < |b| && b[i] == a[0]
    ensures multiset(a[1..]) == multiset(b[..i] + b[i + 1..])
  {
    assert a == [a[0]] + a[1..];
    assert b == b[..i] + [b[i]] + b[i + 1..];
    assert multiset(a) == multiset([a[0]]) + multiset(a[1..]);
    assert multiset(b) == multiset(b[..i]) + multiset([b[i]]) + multiset(b[i + 1..]);
    assert multiset(a[1..]) == multiset(a) - multiset([a[0]]);
    assert multiset(b[..i] + b[i + 1..]) == multiset(b) - multiset([b[i]]);
  }

  lemma {:induction false} HoldingIgnoresOrder(a: seq<Member>, b: seq<Member>)
    requires multiset(a) == multiset(b)
    ensures multiset(Holding(a)) == multiset(Holding(b))
  {
    if a == [] {
      assert |b| == |multiset(b)| == 0;
    } else {
      hide Holding;
      assert a[0] in multiset(b);
      var i :| 0 <= i < |b| && b[i] == a[0];
      OthersMatch(a, b, i);
      HoldingIgnoresOrder(a[1..], b[..i] + b[i + 1..]);
      HoldingOfOthers(b, i);
      HoldingOfSum([a[0]], a[1..]);
      assert a == [a[0]] + a[1..];
    }
  }

  /** The verdict does not depend on the order the actors map lists the tier in. */
  lemma VerdictIgnoresOrder(a: seq<Member>, b: seq<Member>)
    requires multiset(a) == multiset(b)
    ensures EvaluateTier(a) == EvaluateTier(b)
  {
    HoldingIgnoresOrder(a, b);
    StringsAreOrdered();
    SortSorts(Holding(a), StringLeq);
    SortSorts(Holding(b), StringLeq);
    AscendingIsUnique(Sort(Holding(a), StringLeq), Sort(Holding(b), StringLeq), StringLeq);
  }

  /** A name once confirmed stays confirmed, so no later poll waits on it. */
  lemma {:induction false} ConfirmedStaysConfirmed(l: Ledger, batches: seq<Batch>)
    ensures l.confirmed <= AbsorbAll(l, batches).confirmed
    decreases |batches|
  {
    if batches != [] {
      ConfirmedStaysConfirmed(Absorbed(l, batches[0].observed, batches[0].children), batches[1..]);
    }
  }

  lemma HeardIsNeverWaitedOnAgain(l: Ledger, batches: seq<Batch>, tier: seq<Primitive>, name: string)
    requires name in l.confirmed
    ensures name !in EvaluateTier(Members(tier, AbsorbAll(l, batches).confirmed)).waitingOn
  {
    ConfirmedStaysConfirmed(l, batches);
    TierWaitsOnTheUnheard(tier, AbsorbAll(l, batches).confirmed, name);
  }

  // ---------------------------------------------------------------------
  // The wait
  // ---------------------------------------------------------------------

  /** What one turn of the wait sees, and the time since the wait began. */
  datatype Poll = Poll(batch: Batch, tier: seq<Primitive>, elapsed: nat)

  function Batches(polls: seq<Poll>): seq<Batch> {
    seq(|polls|, i requires 0 <= i < |polls| => polls[i].batch)
  }

  /** The verdict of poll i, with everything observed up to it. */
  function VerdictAt(polls: seq<Poll>, i: nat): Verdict
    requires i < |polls|
  {
    EvaluateTier(Members(polls[i].tier, AbsorbAll(EMPTY, Batches(polls[..i + 1])).confirmed))
  }

  /** How a wait ended; `Polling` is a wait whose turns so far neither found the tier
      ready nor reached the deadline. */
  datatype Wait = OptedOut | Ready(polls: nat) | GaveUp(polls: nat, waitingOn: seq<string>) | Polling

  lemma {:induction false} AbsorbAllOneMore(l: Ledger, batches: seq<Batch>, b: Batch)
    ensures AbsorbAll(l, batches + [b]) == Absorbed(AbsorbAll(l, batches), b.observed, b.children)
    decreases |batches|
  {
    hide Absorbed;
    if batches == [] {
      assert (batches + [b])[1..] == [];
    } else {
      assert (batches + [b])[1..] == batches[1..] + [b];
      AbsorbAllOneMore(Absorbed(l, batches[0].observed, batches[0].children), batches[1..], b);
    }
  }

  lemma NextVerdict(polls: seq<Poll>, i: nat)
    requires i < |polls|
    ensures var poll := polls[i];
      var before := AbsorbAll(EMPTY, Batches(polls[..i]));
      var ledger := Absorbed(before, poll.batch.observed, poll.batch.children);
      && ledger == AbsorbAll(EMPTY, Batches(polls[..i + 1]))
      && VerdictAt(polls, i) == EvaluateTier(Members(poll.tier, ledger.confirmed))
  {
    assert Batches(polls[..i + 1]) == Batches(polls[..i]) + [polls[i].batch];
    AbsorbAllOneMore(Ledger({}, []), Batches(polls[..i]), polls[i].batch);
    hide Absorbed, EvaluateTier, Members;
  }

  /** Turn j finds the tier not ready and the deadline not passed. */
  ghost predicate Undecided(timeout: nat, polls: seq<Poll>, j: nat)
    requires j < |polls|
  {
    !VerdictAt(polls, j).ready && polls[j].elapsed < timeout
  }

  /** The wait ends at its first turn that finds the tier ready or the deadline
      passed, and names whoever is still unheard in the second case only. */
  method WaitForTier(timeout: nat, polls: seq<Poll>) returns (w: Wait)
    ensures w.OptedOut? <==> timeout == 0
    ensures (w.Ready? || w.GaveUp?) ==>
      && 0 < w.polls <= |polls|
      && (forall j :: 0 <= j < w.polls - 1 ==> Undecided(timeout, polls, j))
      && (w.Ready? <==> VerdictAt(polls, w.polls - 1).ready)
      && (w.GaveUp? ==> polls[w.polls - 1].elapsed >= timeout && w.waitingOn == VerdictAt(polls, w.polls - 1).waitingOn)
    ensures w.Polling? ==> forall j :: 0 <= j < |polls| ==> Undecided(timeout, polls, j)
  {
    if timeout == 0 {
      return OptedOut;
    }
    hide Absorbed, AbsorbAll, EvaluateTier, Members, VerdictAt, Batches;
    var ledger := Ledger({}, []);
    NothingYet(polls);
    for i := 0 to |polls|
      invariant ledger == AbsorbAll(EMPTY, Batches(polls[..i]))
      invariant forall j :: 0 <= j < i ==> Undecided(timeout, polls, j)
    {
      NextVerdict(polls, i);
      ledger := Absorb(ledger, polls[i].batch.observed, polls[i].batch.children);
      var verdict := EvaluateTier(Members(polls[i].tier, ledger.confirmed));
      if verdict.ready {
        return Ready(i + 1);
      }
      if polls[i].elapsed >= timeout {
        return GaveUp(i + 1, verdict.waitingOn);
      }
    }
    return Polling;
  }

  lemma NothingYet(polls: seq<Poll>)
    ensures AbsorbAll(EMPTY, Batches(polls[..0])) == Ledger({}, [])
  {
  }
}
