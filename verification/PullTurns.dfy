/** What the two streaming loops do with their turns, told from the messages alone.

    Each test is written here on the fields of a message, as the protocol words it,
    and not through the tests the loops make. */
module PullTurns {
  import opened Options
  import opened PullStream

  /** The payload is a map and names the stream. */
  predicate Carries(m: Message, id: string) {
    m.payload.Some? && m.payload.value.streamId == Some(id)
  }

  /** A ready of the data type, naming the stream. */
  predicate Announces(m: Message, kind: string, id: string) {
    m.kind == "stream.ready" && Carries(m, id) && m.payload.value.announces == Some(kind)
  }

  ghost predicate AnnouncesSome(m: Message, kind: string) {
    exists id :: Announces(m, kind, id)
  }

  predicate Asks(m: Message, id: string) { m.kind == "stream.pull" && Carries(m, id) }

  predicate Ends(m: Message, id: string) { m.kind == "stream.end" && Carries(m, id) }

  /** An item of the stream, by its type and its metadata, that does not end it. */
  predicate Delivers(m: Message, kind: string, id: string) {
    m.kind == kind && m.stream == Some(id) && !Ends(m, id)
  }

  /** Why a call ends at a turn that brought no message, or one it failed to answer. */
  function Cause(w: Wait): Outcome {
    match w
    case Cancel => Cancelled
    case Timeout => TimedOut
    case StreamClosed => ConnectionLost
    case Got(_) => PublishFailed
  }

  // ---------------------------------------------------------------------
  // StreamOffer
  // ---------------------------------------------------------------------

  /** The turn brings a message, and a pull is answered. */
  predicate Serves(id: string, w: Wait, ok: bool) { w.Got? && (Asks(w.message, id) ==> ok) }

  /** How many of the turns bring a pull for the stream. */
  function Pulls(id: string, waits: seq<Wait>): nat {
    if waits == [] then 0
    else (if waits[0].Got? && Asks(waits[0].message, id) then 1 else 0) + Pulls(id, waits[1..])
  }

  /** The answer to pull number i: item i, and after the last item the end. */
  function Answer(f: Offered, i: nat): Message {
    if i < |f.items| then Message(f.kind, Some(f.items[i]), Some(f.id))
    else Message("stream.end", Some(Payload(Some(f.id), None, 0)), None)
  }

  function Answers(f: Offered, from: nat, to: nat): seq<Message>
    requires from <= to
  {
    seq(to - from, i requires 0 <= i < to - from => Answer(f, from + i))
  }

  /** Where the offerer is after `pulls` pulls and, if `k` is a turn, the fault there. */
  function OfferAfter(f: Offered, pulls: nat, waits: seq<Wait>, k: nat): Offer {
    if pulls > |f.items| then OfferDone(|f.items|, Returned)
    else if k < |waits| then OfferDone(pulls, Cause(waits[k]))
    else Serving(pulls, pulls)
  }

  function Least(a: nat, b: nat): nat { if a < b then a else b }

  /** Turns that serve, up to turn k, with a fault there or the run's end. */
  ghost predicate ServesUpTo(id: string, waits: seq<Wait>, oks: seq<bool>, k: nat) {
    && |oks| == |waits| && k <= |waits|
    && (forall i :: 0 <= i < k ==> Serves(id, waits[i], oks[i]))
    && (k < |waits| ==> !Serves(id, waits[k], oks[k]))
  }

  lemma ServesUpToRest(id: string, waits: seq<Wait>, oks: seq<bool>, k: nat)
    requires ServesUpTo(id, waits, oks, k) && k > 0
    ensures ServesUpTo(id, waits[1..], oks[1..], k - 1)
    ensures Pulls(id, waits[..k]) == Pulls(id, waits[..1]) + Pulls(id, waits[1..][..k - 1])
    ensures Pulls(id, waits[..1]) == if Asks(waits[0].message, id) then 1 else 0
  {
    assert waits[..k][1..] == waits[1..][..k - 1] && waits[..1][1..] == [];
  }

  /** One turn of the serving loop with j items sent. */
  lemma OneTurnServes(f: Offered, j: nat, w: Wait, ok: bool)
    requires j <= |f.items|
    ensures Served(f, Serving(j, j), w, ok)
      == if !Serves(f.id, w, ok) then (OfferDone(j, Cause(w)), [])
         else if !Asks(w.message, f.id) then (Serving(j, j), [])
         else (if j < |f.items| then Serving(j + 1, j + 1) else OfferDone(j, Returned), [Answer(f, j)])
  {
  }

  lemma ServedFirst(f: Offered, o: Offer, waits: seq<Wait>, oks: seq<bool>)
    requires |oks| == |waits| && waits != [] && o.Serving?
    ensures var (o', sent) := Served(f, o, waits[0], oks[0]);
      var (last, more) := ServedAll(f, o', waits[1..], oks[1..]);
      ServedAll(f, o, waits, oks) == (last, sent + more) && (o'.OfferDone? ==> last == o' && more == [])
  {
  }

  lemma AnswersFrom(f: Offered, j: nat, to: nat)
    requires j < to
    ensures Answers(f, j, to) == [Answer(f, j)] + Answers(f, j + 1, to)
  {
  }

  lemma {:induction false} ServesItsPulls(f: Offered, j: nat, waits: seq<Wait>, oks: seq<bool>, k: nat)
    requires j <= |f.items| && ServesUpTo(f.id, waits, oks, k)
    ensures var (last, sent) := ServedAll(f, Serving(j, j), waits, oks);
      var pulls := j + Pulls(f.id, waits[..k]);
      last == OfferAfter(f, pulls, waits, k) && sent == Answers(f, j, Least(pulls, |f.items| + 1))
    decreases k
  {
    if waits != [] {
      OneTurnServes(f, j, waits[0], oks[0]);
      ServedFirst(f, Serving(j, j), waits, oks);
    }
    hide Served, Answers, Answer;
    AnswersFromNone(f, j);
    AnswersFromNone(f, j + 1);
    if k == 0 {
      assert waits[..0] == [];
    } else {
      ServesUpToRest(f.id, waits, oks, k);
      if !Asks(waits[0].message, f.id) {
        ServesItsPulls(f, j, waits[1..], oks[1..], k - 1);
      } else {
        if j < |f.items| {
          ServesItsPulls(f, j + 1, waits[1..], oks[1..], k - 1);
        }
        AnswersFrom(f, j, Least(j + Pulls(f.id, waits[..k]), |f.items| + 1));
        hide ServedAll;
      }
    }
  }

  lemma AnswersFromNone(f: Offered, j: nat)
    ensures Answers(f, j, j) == []
  {
  }

  /** StreamOffer from its announcement on: it answers the pulls that name its stream,
      one message each, the items in order and then the end, and returns with the end;
      a turn that brings no message, or a pull it fails to answer, ends it with that
      turn's error and the number of items sent; nothing else makes it do anything. */
  lemma OfferFollowsItsPulls(f: Offered, waits: seq<Wait>, oks: seq<bool>, k: nat)
    requires ServesUpTo(f.id, waits, oks, k)
    ensures Announced(f, false) == (OfferDone(0, PublishFailed), [])
    ensures var (o, ready) := Announced(f, true);
      var (last, sent) := ServedAll(f, o, waits, oks);
      var pulls := Pulls(f.id, waits[..k]);
      && ready == [Message("stream.ready", Some(Payload(Some(f.id), Some(f.kind), |f.items|)), None)]
      && last == OfferAfter(f, pulls, waits, k) && sent == Answers(f, 0, Least(pulls, |f.items| + 1))
  {
    ServesItsPulls(f, 0, waits, oks, k);
  }

  // ---------------------------------------------------------------------
  // StreamConsume
  // ---------------------------------------------------------------------

  function PullsOf(id: string, n: nat): seq<Message> {
    seq(n, _ => Message("stream.pull", Some(Payload(Some(id), None, 0)), None))
  }

  /** The turn brings a message that announces no stream of the type. */
  ghost predicate Ignored(kind: string, w: Wait) { w.Got? && !AnnouncesSome(w.message, kind) }

  /** A consumer that waits for a ready passes over every message that does not
      announce a stream of its type, and publishes nothing for it; the first that does
      binds it to the stream named there and is answered with one pull; and a turn
      without a message ends it, with nothing consumed. */
  lemma {:induction false} ConsumeAwaitsItsReady(kind: string, waits: seq<Wait>, oks: seq<bool>, k: nat, id: string)
    requires |oks| == |waits| && k <= |waits| && forall i :: 0 <= i < k ==> Ignored(kind, waits[i])
    ensures k == |waits| ==> ConsumedAll(kind, AwaitingReady, waits, oks) == (AwaitingReady, [])
    ensures k < |waits| && !waits[k].Got? ==>
      ConsumedAll(kind, AwaitingReady, waits, oks) == (ConsumeDone(None, [], Cause(waits[k])), [])
    ensures k < |waits| && waits[k].Got? && Announces(waits[k].message, kind, id) ==>
      ConsumedAll(kind, AwaitingReady, waits, oks)
      == if !oks[k] then (ConsumeDone(Some(id), [], PublishFailed), [])
         else var (last, more) := ConsumedAll(kind, Consuming(id, []), waits[k + 1..], oks[k + 1..]);
           (last, PullsOf(id, 1) + more)
    decreases k
  {
    if k > 0 {
      ConsumeAwaitsItsReady(kind, waits[1..], oks[1..], k - 1, id);
      assert Ignored(kind, waits[0]);
      var m := waits[0].message;
      if m.payload.Some? && m.payload.value.streamId.Some? {
        assert !Announces(m, kind, m.payload.value.streamId.value);
      }
      var (last, more) := ConsumedAll(kind, AwaitingReady, waits[1..], oks[1..]);
      assert ConsumedAll(kind, AwaitingReady, waits, oks) == (last, more) by { assert [] + more == more; }
      assert k < |waits| ==> waits[1..][k - 1 + 1..] == waits[k + 1..] && oks[1..][k - 1 + 1..] == oks[k + 1..];
    } else if waits != [] {
      assert PullsOf(id, 1) == [PullFor(id)];
      var (c, sent) := Consumed(kind, AwaitingReady, waits[0], oks[0]);
      var (last, more) := ConsumedAll(kind, c, waits[1..], oks[1..]);
      assert ConsumedAll(kind, AwaitingReady, waits, oks) == (last, sent + more);
      assert c.ConsumeDone? ==> last == c && sent + more == [];
    }
  }

  /** The turn brings a message that is not the stream's end, and an item is answered. */
  predicate Takes(kind: string, id: string, w: Wait, ok: bool) {
    w.Got? && !Ends(w.message, id) && (Delivers(w.message, kind, id) ==> ok)
  }

  /** What the stream's items among the turns carry, in order. */
  function Items(kind: string, id: string, waits: seq<Wait>): seq<Option<Payload>> {
    if waits == [] then []
    else
      (if waits[0].Got? && Delivers(waits[0].message, kind, id) then [waits[0].message.payload] else [])
      + Items(kind, id, waits[1..])
  }

  /** Where the consumer is after taking `got` and, if `k` is a turn, what comes there:
      an item that cannot be answered has been passed on before the call fails. */
  function ConsumeAfter(kind: string, id: string, got: seq<Option<Payload>>, waits: seq<Wait>, k: nat): Consume {
    if k >= |waits| then Consuming(id, got)
    else if waits[k].Got? && Ends(waits[k].message, id) then ConsumeDone(Some(id), got, Returned)
    else if waits[k].Got? then ConsumeDone(Some(id), got + [waits[k].message.payload], PublishFailed)
    else ConsumeDone(Some(id), got, Cause(waits[k]))
  }

  /** One turn of the taking loop. */
  lemma OneTurnTakes(kind: string, id: string, got: seq<Option<Payload>>, w: Wait, ok: bool)
    ensures Takes(kind, id, w, ok) ==>
      Consumed(kind, Consuming(id, got), w, ok)
      == if Delivers(w.message, kind, id) then (Consuming(id, got + [w.message.payload]), PullsOf(id, 1))
         else (Consuming(id, got), [])
    ensures !Takes(kind, id, w, ok) ==>
      Consumed(kind, Consuming(id, got), w, ok) == (ConsumeAfter(kind, id, got, [w], 0), [])
  {
    assert PullsOf(id, 1) == [PullFor(id)];
  }

  lemma ConsumedFirst(kind: string, c: Consume, waits: seq<Wait>, oks: seq<bool>)
    requires |oks| == |waits| && waits != [] && !c.ConsumeDone?
    ensures var (c', sent) := Consumed(kind, c, waits[0], oks[0]);
      var (last, more) := ConsumedAll(kind, c', waits[1..], oks[1..]);
      ConsumedAll(kind, c, waits, oks) == (last, sent + more) && (c'.ConsumeDone? ==> last == c' && more == [])
  {
  }

  lemma OneMorePull(id: string, n: nat)
    ensures PullsOf(id, 1) + PullsOf(id, n) == PullsOf(id, 1 + n) && PullsOf(id, 0) == []
  {
  }

  lemma ItemsFirst(kind: string, id: string, waits: seq<Wait>, k: nat)
    requires 0 < k <= |waits|
    ensures Items(kind, id, waits[..k])
         == (if waits[0].Got? && Delivers(waits[0].message, kind, id) then [waits[0].message.payload] else [])
          + Items(kind, id, waits[1..][..k - 1])
  {
    assert waits[..k][1..] == waits[1..][..k - 1];
  }

  /** A bound consumer passes on the items of its stream in order, with one pull for
      each, up to the first turn that brings the stream's end, no message, or an item it
      fails to answer; and that turn ends it, with its own outcome. */
  lemma {:induction false} ConsumeTakesItsItems(kind: string, id: string, got: seq<Option<Payload>>,
                                               waits: seq<Wait>, oks: seq<bool>, k: nat)
    requires |oks| == |waits| && k <= |waits| && forall i :: 0 <= i < k ==> Takes(kind, id, waits[i], oks[i])
    requires k < |waits| ==> !Takes(kind, id, waits[k], oks[k])
    ensures var items := Items(kind, id, waits[..k]);
      ConsumedAll(kind, Consuming(id, got), waits, oks)
      == (ConsumeAfter(kind, id, got + items, waits, k), PullsOf(id, |items|))
    decreases k
  {
    if waits != [] {
      OneTurnTakes(kind, id, got, waits[0], oks[0]);
      ConsumedFirst(kind, Consuming(id, got), waits, oks);
    }
    if k == 0 {
      assert waits[..0] == [] && got + [] == got && PullsOf(id, 0) == [];
    } else {
      assert Takes(kind, id, waits[0], oks[0]);
      hide Consumed, Ends, PullsOf;
      ItemsFirst(kind, id, waits, k);
      var c := Consumed(kind, Consuming(id, got), waits[0], oks[0]).0;
      var rest := Items(kind, id, waits[1..][..k - 1]);
      ConsumeTakesItsItems(kind, id, c.got, waits[1..], oks[1..], k - 1);
      hide ConsumedAll, Items, Takes, Delivers;
      OneMorePull(id, |rest|);
      assert got + ([waits[0].message.payload] + rest) == got + [waits[0].message.payload] + rest;
      assert [] + rest == rest && [] + PullsOf(id, |rest|) == PullsOf(id, |rest|);
    }
  }
}
