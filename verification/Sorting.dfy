/** Sorting by a comparison, for the lists the engine sorts before it shows them,
    and the order of Rust strings. */
module Sorting {

  ghost predicate Preorder<T(!new)>(le: (T, T) -> bool) {
    && (forall a, b :: le(a, b) || le(b, a))
    && (forall a, b, c :: le(a, b) && le(b, c) ==> le(a, c))
  }

  /** No two different elements are equal to the comparison. */
  ghost predicate NoTies<T(!new)>(s: seq<T>, le: (T, T) -> bool) {
    forall a, b :: a in s && b in s && le(a, b) && le(b, a) ==> a == b
  }

  ghost predicate Ascending<T(!new)>(s: seq<T>, le: (T, T) -> bool) {
    forall i, j :: 0 <= i < j < |s| ==> le(s[i], s[j])
  }

  function Insert<T>(x: T, s: seq<T>, le: (T, T) -> bool): seq<T> {
    if s == [] then [x]
    else if le(x, s[0]) then [x] + s
    else [s[0]] + Insert(x, s[1..], le)
  }

  function Sort<T>(s: seq<T>, le: (T, T) -> bool): seq<T> {
    if s == [] then [] else Insert(s[0], Sort(s[1..], le), le)
  }

  lemma OrderedSteps<T(!new)>(le: (T, T) -> bool, a: T, b: T, c: T)
    requires Preorder(le)
    ensures le(a, b) || le(b, a)
    ensures le(a, b) && le(b, c) ==> le(a, c)
  {
  }

  lemma PutFirst<T(!new)>(x: T, s: seq<T>, le: (T, T) -> bool)
    requires Ascending(s, le) && forall k :: 0 <= k < |s| ==> le(x, s[k])
    ensures Ascending([x] + s, le)
  {
  }

  lemma {:induction false} InsertSorts<T(!new)>(x: T, s: seq<T>, le: (T, T) -> bool)
    requires Preorder(le) && Ascending(s, le)
    ensures Ascending(Insert(x, s, le), le) && multiset(Insert(x, s, le)) == multiset(s) + multiset{x}
  {
    hide Preorder;
    if s != [] {
      assert s == [s[0]] + s[1..];
      OrderedSteps(le, x, s[0], s[0]);
      if le(x, s[0]) {
        forall k | 0 < k < |s|
          ensures le(x, s[k])
        {
          OrderedSteps(le, x, s[0], s[k]);
        }
        PutFirst(x, s, le);
      } else {
        InsertSorts(x, s[1..], le);
        var rest := Insert(x, s[1..], le);
        forall k | 0 <= k < |rest|
          ensures le(s[0], rest[k])
        {
          assert rest[k] in multiset(s[1..]) + multiset{x};
        }
        PutFirst(s[0], rest, le);
      }
    }
  }

  lemma {:induction false} SortSorts<T(!new)>(s: seq<T>, le: (T, T) -> bool)
    requires Preorder(le)
    ensures Ascending(Sort(s, le), le) && multiset(Sort(s, le)) == multiset(s)
  {
    if s != [] {
      assert s == [s[0]] + s[1..];
      SortSorts(s[1..], le);
      InsertSorts(s[0], Sort(s[1..], le), le);
    }
  }

  lemma TailsMatch<T(!new)>(a: seq<T>, b: seq<T>)
    requires multiset(a) == multiset(b) && a != [] && b != [] && a[0] == b[0]
    ensures multiset(a[1..]) == multiset(b[1..])
  {
    assert a == [a[0]] + a[1..] && b == [b[0]] + b[1..];
    assert multiset(a[1..]) == multiset(a) - multiset{a[0]};
    assert multiset(b[1..]) == multiset(b) - multiset{b[0]};
  }

  lemma TailStaysSorted<T(!new)>(s: seq<T>, le: (T, T) -> bool)
    requires Ascending(s, le) && NoTies(s, le) && s != []
    ensures Ascending(s[1..], le) && NoTies(s[1..], le)
  {
    assert forall x :: x in s[1..] ==> x in s;
  }

  lemma HeadsMatch<T(!new)>(a: seq<T>, b: seq<T>, le: (T, T) -> bool)
    requires Preorder(le) && NoTies(a, le) && Ascending(a, le) && Ascending(b, le)
    requires multiset(a) == multiset(b) && a != [] && b != []
    ensures a[0] == b[0]
  {
    hide Preorder, Ascending;
    assert a[0] in multiset(b) && b[0] in multiset(a);
    LeastComesFirst(a, b[0], le);
    LeastComesFirst(b, a[0], le);
  }

  lemma SameSize<T(!new)>(a: seq<T>, b: seq<T>)
    requires multiset(a) == multiset(b)
    ensures |a| == |b|
  {
    assert |a| == |multiset(a)| == |multiset(b)| == |b|;
  }

  lemma TieFreeTail<T(!new)>(a: seq<T>, b: seq<T>, le: (T, T) -> bool)
    requires multiset(a) == multiset(b) && NoTies(a, le)
    ensures NoTies(b, le)
  {
    assert forall x :: x in b ==> x in multiset(b);
    assert forall x :: x in multiset(a) ==> x in a;
  }

  /** Without ties there is one way to sort: whatever algorithm sorts, and in
      whatever order it is given the elements, the result is the same. */
  lemma {:induction false} AscendingIsUnique<T(!new)>(a: seq<T>, b: seq<T>, le: (T, T) -> bool)
    requires Preorder(le) && NoTies(a, le) && Ascending(a, le) && Ascending(b, le) && multiset(a) == multiset(b)
    ensures a == b
  {
    hide Preorder, Ascending, NoTies;
    SameSize(a, b);
    if a != [] {
      HeadsMatch(a, b, le);
      TailsMatch(a, b);
      TieFreeTail(a, b, le);
      TailStaysSorted(a, le);
      TailStaysSorted(b, le);
      AscendingIsUnique(a[1..], b[1..], le);
      assert a == [a[0]] + a[1..] && b == [b[0]] + b[1..];
    }
  }

  lemma LeastComesFirst<T(!new)>(s: seq<T>, x: T, le: (T, T) -> bool)
    requires Preorder(le) && Ascending(s, le) && x in s
    ensures le(s[0], x)
  {
    var i :| 0 <= i < |s| && s[i] == x;
    if i == 0 {
      assert le(x, x);
    }
  }

  /** Rust compares strings byte by byte, which for UTF-8 is code point by code
      point. */
  predicate StringLeq(a: string, b: string) {
    if a == [] then true
    else if b == [] then false
    else if a[0] == b[0] then StringLeq(a[1..], b[1..])
    else a[0] < b[0]
  }

  /** The two agree up to n, and there the first one ends or has the smaller character. */
  ghost predicate LeqAt(a: string, b: string, n: nat) {
    && n <= |a| && n <= |b| && a[..n] == b[..n]
    && (n == |a| || (n < |b| && a[n] < b[n]))
  }

  lemma AgreeingStringsBeginAlike(a: string, b: string, n: nat)
    requires LeqAt(a, b, n)
    ensures n > 0 ==> a[0] == b[0]
  {
    assert n > 0 ==> a[..n][0] == b[..n][0];
  }

  /** Strings are in the order of a dictionary. */
  lemma {:induction false} StringsAreInDictionaryOrder(a: string, b: string)
    ensures StringLeq(a, b) <==> exists n: nat :: LeqAt(a, b, n)
  {
    if a == [] {
      assert LeqAt(a, b, 0);
    } else if b != [] && a[0] == b[0] {
      StringsAreInDictionaryOrder(a[1..], b[1..]);
      var c, d := a[1..], b[1..];
      if n: nat :| LeqAt(c, d, n) {
        assert a[..n + 1] == [a[0]] + c[..n] && b[..n + 1] == [b[0]] + d[..n];
        assert LeqAt(a, b, n + 1);
      }
      if n: nat :| LeqAt(a, b, n) {
        assert n > 0;
        assert a[..n][1..] == c[..n - 1] && b[..n][1..] == d[..n - 1];
        assert LeqAt(c, d, n - 1);
      }
    } else if b != [] {
      forall n: nat | LeqAt(a, b, n)
        ensures n == 0
      {
        AgreeingStringsBeginAlike(a, b, n);
      }
      assert a[0] < b[0] ==> LeqAt(a, b, 0);
    }
  }

  lemma {:induction false} StringLeqIsTotal(a: string, b: string)
    ensures StringLeq(a, b) || StringLeq(b, a)
  {
    if a != [] && b != [] && a[0] == b[0] {
      StringLeqIsTotal(a[1..], b[1..]);
    }
  }

  lemma {:induction false} StringLeqIsAntisymmetric(a: string, b: string)
    requires StringLeq(a, b) && StringLeq(b, a)
    ensures a == b
  {
    if a != [] && b != [] {
      StringLeqIsAntisymmetric(a[1..], b[1..]);
      assert a == [a[0]] + a[1..] && b == [b[0]] + b[1..];
    }
  }

  lemma {:induction false} StringLeqIsTransitive(a: string, b: string, c: string)
    requires StringLeq(a, b) && StringLeq(b, c)
    ensures StringLeq(a, c)
  {
    if a != [] && b != [] && c != [] && a[0] == b[0] == c[0] {
      StringLeqIsTransitive(a[1..], b[1..], c[1..]);
    }
  }

  lemma StringsAreOrdered()
    ensures Preorder(StringLeq)
    ensures forall a, b :: StringLeq(a, b) && StringLeq(b, a) ==> a == b
  {
    forall a, b
      ensures StringLeq(a, b) || StringLeq(b, a)
    {
      StringLeqIsTotal(a, b);
    }
    forall a, b | StringLeq(a, b) && StringLeq(b, a)
      ensures a == b
    {
      StringLeqIsAntisymmetric(a, b);
    }
    forall a, b, c | StringLeq(a, b) && StringLeq(b, c)
      ensures StringLeq(a, c)
    {
      StringLeqIsTransitive(a, b, c);
    }
  }
}
