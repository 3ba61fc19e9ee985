/** Runs in which the pull protocol fails: an item whose own payload names the stream,
    offered under the type stream.end or stream.pull, and a ready of another stream of
    the same type that comes first. */
module PullFailures {
  import opened Options
  import opened Streams
  import opened PullStream
  import opened PullProtocol

  lemma {:induction false} RunsJoin(s: System, first: seq<Action>, second: seq<Action>)
    requires Run(s, first) && Run(After(s, first), second)
    ensures Run(s, first + second) && After(s, first + second) == After(After(s, first), second)
    decreases |first|
  {
    if first == [] {
      assert first + second == second;
    } else {
      assert (first + second)[1..] == first[1..] + second;
      RunsJoin(Step(s, first[0]), first[1..], second);
    }
  }

  /** Two parties and two open channels with room. */
  ghost predicate Ready(s: System) { Begin(s) && Flowing(s.pulls) && Flowing(s.source) }

  /** The first item whose payload names the stream. */
  ghost predicate FirstMisnamed(f: Offered, k: nat) {
    && k < |f.items| && f.items[k].streamId == Some(f.id)
    && forall i :: 0 <= i < k ==> f.items[i].streamId != Some(f.id)
  }

  lemma SomeIsFirst(f: Offered) returns (k: nat)
    requires !WellNamed(f)
    ensures FirstMisnamed(f, k) && (f.kind == END || f.kind == PULL)
  {
    k := 0;
    while f.items[k].streamId != Some(f.id)
      invariant k < |f.items| && forall i :: 0 <= i < k ==> f.items[i].streamId != Some(f.id)
      invariant exists i :: k <= i < |f.items| && f.items[i].streamId == Some(f.id)
      decreases |f.items| - k
    {
      k := k + 1;
    }
  }

  /** k items served, consumed and asked past: the next pull is on its way. */
  function Asked(s: System, k: nat): System
    requires k <= |s.f.items|
  {
    s.(offer := Serving(k, k), consume := Consuming(s.f.id, Outcomes(s.f, k)),
       pulls := Channel([PullFor(s.f.id)], s.pulls.stream), source := Channel([], s.source.stream))
  }

  /** Item k published, before the engine delivers it. */
  function OnItsWay(s: System, k: nat): System
    requires k < |s.f.items|
  {
    var item := ItemOf(s.f, k);
    Asked(s, k).(offer := Serving(k + 1, k + 1),
                 pulls := Channel(Echo([item]), s.pulls.stream), source := Channel([item], s.source.stream))
  }

  lemma Extend(s: System, run: seq<Action>, a: Action) returns (more: seq<Action>)
    requires Run(s, run) && Enabled(After(s, run), a)
    ensures Run(s, more) && After(s, more) == Step(After(s, run), a)
  {
    hide Enabled, Step;
    var e, last := After(s, run), [a];
    assert last[1..] == [] && Run(e, last);
    RunsJoin(s, run, last);
    more := run + last;
  }

  /** What one delivery and one receipt do to a channel that holds one message. */
  lemma OneMessagePasses(ch: Channel, m: Message)
    requires ch == Channel([m], ch.stream) && ch.stream.buffer == [] && Flowing(ch)
    ensures Delivered(ch) == Channel([], ch.stream.(buffer := [m]))
    ensures PullProtocol.Received(Delivered(ch), Got(m)) == Channel([], ch.stream)
    ensures Front(Delivered(ch).stream) == Item(m)
  {
    assert [m][1..] == [] && [] + [m] == [m];
  }

  lemma Announces(s: System) returns (run: seq<Action>)
    requires Ready(s)
    ensures Run(s, run) && After(s, run) == Asked(s, 0)
  {
    var f, m := s.f, ReadyFor(s.f);
    run := Extend(s, [], Announce(true));
    var s1 := After(s, run);
    assert s1.source == Channel([m], s.source.stream);
    OneMessagePasses(s1.source, m);
    run := Extend(s, run, DeliverSource);
    run := Extend(s, run, Consumer(Got(m), true));
    assert s.pulls.wire + [PullFor(f.id)] == [PullFor(f.id)] && Outcomes(f, 0) == [];
  }

  /** From a pull on its way to item k on its way, and back to the offerer where its
      type is stream.pull. */
  lemma Serves(s: System, before: seq<Action>, k: nat) returns (run: seq<Action>)
    requires Ready(s) && k < |s.f.items| && Run(s, before) && After(s, before) == Asked(s, k)
    ensures Run(s, run) && After(s, run) == OnItsWay(s, k)
  {
    var m := PullFor(s.f.id);
    var e := Asked(s, k);
    OneMessagePasses(e.pulls, m);
    run := Extend(s, before, DeliverPull);
    run := Extend(s, run, Offerer(Got(m), true));
    assert [] + Echo([ItemOf(s.f, k)]) == Echo([ItemOf(s.f, k)]) && [] + [ItemOf(s.f, k)] == [ItemOf(s.f, k)];
  }

  /** An echo that does not name the stream is read and dropped. */
  lemma EchoPasses(s: System, before: seq<Action>, k: nat) returns (run: seq<Action>)
    requires Ready(s) && k < |s.f.items| && s.f.items[k].streamId != Some(s.f.id)
    requires Run(s, before) && After(s, before) == OnItsWay(s, k)
    ensures Run(s, run) && After(s, run) == OnItsWay(s, k).(pulls := Channel([], s.pulls.stream))
  {
    var m := ItemOf(s.f, k);
    run := before;
    if s.f.kind == PULL {
      OneMessagePasses(OnItsWay(s, k).pulls, m);
      run := Extend(s, run, DeliverPull);
      run := Extend(s, run, Offerer(Got(m), true));
      assert [] + Echo([]) == [] && [m] + [] == [m];
    }
  }

  /** An item that does not name the stream is consumed, and the next one asked for. */
  lemma Consumes(s: System, before: seq<Action>, k: nat) returns (run: seq<Action>)
    requires Ready(s) && k < |s.f.items| && s.f.items[k].streamId != Some(s.f.id)
    requires Run(s, before) && After(s, before) == OnItsWay(s, k).(pulls := Channel([], s.pulls.stream))
    ensures Run(s, run) && After(s, run) == Asked(s, k + 1)
  {
    var m, e := ItemOf(s.f, k), After(s, before);
    OneMessagePasses(e.source, m);
    run := Extend(s, before, DeliverSource);
    run := Extend(s, run, Consumer(Got(m), true));
    assert Outcomes(s.f, k) + [m.payload] == Outcomes(s.f, k + 1);
    assert [] + [PullFor(s.f.id)] == [PullFor(s.f.id)];
  }

  lemma {:induction false} ReachesItem(s: System, k: nat) returns (run: seq<Action>)
    requires Ready(s) && k <= |s.f.items| && forall i :: 0 <= i < k ==> s.f.items[i].streamId != Some(s.f.id)
    ensures Run(s, run) && After(s, run) == Asked(s, k)
  {
    if k == 0 {
      run := Announces(s);
    } else {
      run := ReachesItem(s, k - 1);
      run := Serves(s, run, k - 1);
      run := EchoPasses(s, run, k - 1);
      run := Consumes(s, run, k - 1);
    }
  }

  /** In a stream of stream.end messages, the first item that names the stream reads
      as its end: the consumer returns without it, and without those after it. */
  lemma ItemNamingItsStreamReadsAsEnd(s: System, k: nat) returns (run: seq<Action>)
    requires Ready(s) && s.f.kind == END && FirstMisnamed(s.f, k)
    ensures Run(s, run) && After(s, run).f == s.f
    ensures After(s, run).consume == ConsumeDone(Some(s.f.id), Outcomes(s.f, k), Returned)
  {
    run := ReachesItem(s, k);
    run := Serves(s, run, k);
    var m := ItemOf(s.f, k);
    OneMessagePasses(OnItsWay(s, k).source, m);
    run := Extend(s, run, DeliverSource);
    run := Extend(s, run, Consumer(Got(m), true));
  }

  /** In a stream of stream.pull messages, the first item that names the stream comes
      back to the offerer as a pull: it publishes the next item, or ends the stream,
      while this one has not been consumed. */
  lemma ItemNamingItsStreamReadsAsPull(s: System, k: nat) returns (run: seq<Action>)
    requires Ready(s) && s.f.kind == PULL && FirstMisnamed(s.f, k)
    ensures Run(s, run) && After(s, run).f == s.f
    ensures After(s, run).consume == Consuming(s.f.id, Outcomes(s.f, k))
    ensures var next := if k + 1 < |s.f.items| then ItemOf(s.f, k + 1) else EndOf(s.f);
      After(s, run).source.wire == [ItemOf(s.f, k), next] && After(s, run).source.stream.buffer == []
    ensures After(s, run).offer
         == if k + 1 < |s.f.items| then Serving(k + 2, k + 2) else OfferDone(k + 1, Returned)
  {
    run := ReachesItem(s, k);
    run := Serves(s, run, k);
    var m := ItemOf(s.f, k);
    OneMessagePasses(OnItsWay(s, k).pulls, m);
    run := Extend(s, run, DeliverPull);
    run := Extend(s, run, Offerer(Got(m), true));
  }

  /** Between two parties with open channels, every interleaving is safe exactly when
      no item of type stream.end or stream.pull names the stream in its payload. */
  lemma SafeExactlyWhenWellNamed(s: System)
    requires Ready(s)
    ensures (forall run :: Run(s, run) ==> Safe(After(s, run))) <==> WellNamed(s.f)
  {
    if WellNamed(s.f) {
      forall run | Run(s, run)
        ensures Safe(After(s, run))
      {
        PullStreamIsSafe(s, run);
      }
    } else {
      var k := SomeIsFirst(s.f);
      var run;
      if s.f.kind == END {
        run := ItemNamingItsStreamReadsAsEnd(s, k);
      } else {
        run := ItemNamingItsStreamReadsAsPull(s, k);
        TwoOnTheirWay(After(s, run), k);
      }
      assert Run(s, run) && !Safe(After(s, run));
    }
  }

  lemma TwoOnTheirWay(e: System, k: nat)
    requires k < |e.f.items| && e.source.stream.buffer == []
    requires e.source.wire == [ItemOf(e.f, k), if k + 1 < |e.f.items| then ItemOf(e.f, k + 1) else EndOf(e.f)]
    ensures |Tokens(e.f, true, Queue(e.source))| == 2
  {
    var q := Queue(e.source);
    assert q == e.source.wire && q[1..] == [q[1]] && q[1..][1..] == [];
    TokensOfOne(e.f, true, q[1]);
  }

  // ---------------------------------------------------------------------
  // A ready of another stream
  // ---------------------------------------------------------------------

  lemma {:induction false} FaultlessJoin(s: System, run: seq<Action>, a: Action)
    requires FaultlessRun(s, run) && Run(s, run) && Enabled(After(s, run), a) && Faultless(After(s, run), a)
    ensures FaultlessRun(s, run + [a])
    decreases |run|
  {
    hide Enabled, Step, Faultless;
    if run == [] {
      var last := run + [a];
      assert last[1..] == [] && FaultlessRun(Step(s, a), []);
    } else {
      assert (run + [a])[1..] == run[1..] + [a];
      FaultlessJoin(Step(s, run[0]), run[1..], a);
    }
  }

  lemma GoOn(s: System, run: seq<Action>, a: Action) returns (more: seq<Action>)
    requires FaultlessRun(s, run) && Run(s, run) && Enabled(After(s, run), a) && Faultless(After(s, run), a)
    ensures FaultlessRun(s, more) && Run(s, more) && After(s, more) == Step(After(s, run), a)
  {
    FaultlessJoin(s, run, a);
    var e, last := After(s, run), [a];
    hide Enabled, Step, Faultless;
    assert last[1..] == [] && Run(e, last);
    RunsJoin(s, run, last);
    more := run + last;
  }

  /** The consumer has bound to the other stream and asked it for an item. */
  function BoundElsewhere(s: System, other: string): System {
    s.(consume := Consuming(other, []), pulls := Channel([PullFor(other)], s.pulls.stream))
  }

  lemma BindsElsewhere(s: System, other: string) returns (run: seq<Action>)
    requires Ready(s) && other != s.f.id
    ensures FaultlessRun(s, run) && Run(s, run) && After(s, run) == BoundElsewhere(s, other)
  {
    var m := Message(READY, Some(Payload(Some(other), Some(s.f.kind), 0)), None);
    run := GoOn(s, [], ForeignSource(m));
    assert After(s, run).source == Channel([m], s.source.stream);
    OneMessagePasses(After(s, run).source, m);
    run := GoOn(s, run, DeliverSource);
    run := GoOn(s, run, Consumer(Got(m), true));
    assert s.pulls.wire + [PullFor(other)] == [PullFor(other)] && s.source.wire == [];
  }

  /** With a ready of another stream of the same type before it, the offered stream's
      own ready goes unheard: a run from the start, without faults, reaches a state
      that cannot go on, in which neither call has returned and nothing was published. */
  lemma ForeignReadyTakenFirst(s: System, other: string) returns (run: seq<Action>)
    requires Ready(s) && other != s.f.id
    ensures FaultlessRun(s, run) && Run(s, run) && Stuck(After(s, run))
    ensures FirstReady(s.f.kind, run) == Some(other)
    ensures After(s, run).offer == Serving(0, 0) && After(s, run).consume == Consuming(other, [])
  {
    var pull, ready := PullFor(other), ReadyFor(s.f);
    run := BindsElsewhere(s, other);
    OneMessagePasses(After(s, run).pulls, pull);
    run := GoOn(s, run, DeliverPull);
    run := GoOn(s, run, Announce(true));
    assert s.source.wire + [ready] == [ready];
    run := GoOn(s, run, Offerer(Got(pull), true));
    OneMessagePasses(After(s, run).source, ready);
    run := GoOn(s, run, DeliverSource);
    run := GoOn(s, run, Consumer(Got(ready), true));
    FirstReadyBinds(s, run);
    var e := After(s, run);
    assert e.pulls.wire == [] && Front(e.pulls.stream) == WouldBlock;
    assert e.source.wire == [] && Front(e.source.stream) == WouldBlock;
  }
}
