/** The pull protocol as two parties over two lossy FIFO channels.

    One offerer of a freshly named stream and one consumer interleave with the
    engine, which forwards what is published in order to every subscriber of its
    type, the publisher included, and with the rest of the topology, which may put
    any message that is not about this stream on either channel, ready messages of
    other streams included. Either side's buffer may drop, close or be left waiting
    at any point. */
module PullProtocol {
  import opened Options
  import opened Streams
  import opened PullStream
  import opened PullTurns

  /** What was published and not yet pushed, then the receiver's own stream. */
  datatype Channel = Channel(wire: seq<Message>, stream: Stream<Message>)

  function Queue(ch: Channel): seq<Message> {
    ch.stream.buffer + ch.wire
  }

  function Sent(ch: Channel, ms: seq<Message>): Channel {
    ch.(wire := ch.wire + ms)
  }

  function Delivered(ch: Channel): Channel
    requires ch.wire != []
  {
    Channel(ch.wire[1..], Pushed(ch.stream, ch.wire[0]))
  }

  function Received(ch: Channel, w: Wait): Channel {
    if w.Got? then ch.(stream := Taken(ch.stream)) else ch
  }

  /** What comes back to the offerer of what it published: its own stream is
      subscribed to stream.pull. Whatever else it is subscribed to cannot be taken
      for a pull, and may arrive as a foreign message. */
  function Echo(ms: seq<Message>): seq<Message> {
    if |ms| == 1 && ms[0].kind == PULL then ms else []
  }

  predicate HasRoom(s: Stream<Message>) {
    !s.closed && |s.buffer| < s.capacity
  }

  datatype System = System(f: Offered, offer: Offer, consume: Consume, pulls: Channel, source: Channel)

  datatype Action =
    | Announce(ok: bool)
    | Offerer(w: Wait, ok: bool)
    | Consumer(w: Wait, ok: bool)
    | DeliverPull
    | DeliverSource
    | ForeignPull(m: Message)
    | ForeignSource(m: Message)
    | ClosePulls
    | CloseSource

  /** What a select on this stream can choose. */
  predicate CanChoose(s: Stream<Message>, w: Wait) {
    match w
    case Got(m) => Front(s) == Item(m)
    case StreamClosed => Front(s) == Ended
    case _ => true
  }

  /** The messages that are about stream `f`, on the consumer's channel or else
      on the offerer's. */
  predicate Concerns(f: Offered, toConsumer: bool, m: Message) {
    if toConsumer then
      || ((m.kind == "stream.ready" || m.kind == "stream.end") && Carries(m, f.id))
      || (m.kind == f.kind && m.stream == Some(f.id))
    else m.kind == "stream.pull" && Carries(m, f.id)
  }

  predicate Enabled(s: System, a: Action) {
    match a
    case Announce(_) => s.offer.Announcing?
    case Offerer(w, _) => s.offer.Serving? && CanChoose(s.pulls.stream, w)
    case Consumer(w, _) => !s.consume.ConsumeDone? && CanChoose(s.source.stream, w)
    case DeliverPull => s.pulls.wire != []
    case DeliverSource => s.source.wire != []
    case ForeignPull(m) => !Concerns(s.f, false, m)
    case ForeignSource(m) => !Concerns(s.f, true, m)
    case _ => true
  }

  function Step(s: System, a: Action): System
    requires Enabled(s, a)
  {
    match a
    case Announce(ok) =>
      var (o, ms) := Announced(s.f, ok);
      s.(offer := o, source := Sent(s.source, ms))
    case Offerer(w, ok) =>
      var (o, ms) := Served(s.f, s.offer, w, ok);
      s.(offer := o, pulls := Sent(Received(s.pulls, w), Echo(ms)), source := Sent(s.source, ms))
    case Consumer(w, ok) =>
      var (c, ms) := Consumed(s.f.kind, s.consume, w, ok);
      s.(consume := c, source := Received(s.source, w), pulls := Sent(s.pulls, ms))
    case DeliverPull => s.(pulls := Delivered(s.pulls))
    case DeliverSource => s.(source := Delivered(s.source))
    case ForeignPull(m) => s.(pulls := Sent(s.pulls, [m]))
    case ForeignSource(m) => s.(source := Sent(s.source, [m]))
    case ClosePulls => s.(pulls := s.pulls.(stream := Closed(s.pulls.stream)))
    case CloseSource => s.(source := s.source.(stream := Closed(s.source.stream)))
  }

  ghost predicate Run(s: System, run: seq<Action>)
    decreases |run|
  {
    run == [] || (Enabled(s, run[0]) && Run(Step(s, run[0]), run[1..]))
  }

  ghost function After(s: System, run: seq<Action>): System
    requires Run(s, run)
    decreases |run|
  {
    if run == [] then s else After(Step(s, run[0]), run[1..])
  }

  /** An item can be mistaken for the end of its stream when the data type is
      stream.end, and for a pull when it is stream.pull; both only when the item's
      own payload names the stream. */
  predicate WellNamed(f: Offered) {
    f.kind == END || f.kind == PULL ==> forall k :: 0 <= k < |f.items| ==> f.items[k].streamId != Some(f.id)
  }

  /** Before the first step: nothing offered, nothing consumed, nothing on its way. */
  ghost predicate Begin(s: System) {
    && s.offer == Announcing && s.consume == AwaitingReady
    && s.pulls.wire == [] && s.pulls.stream.buffer == []
    && s.source.wire == [] && s.source.stream.buffer == []
  }

  ghost predicate Init(s: System) { WellNamed(s.f) && Begin(s) }

  // ---------------------------------------------------------------------
  // The tokens on a channel
  // ---------------------------------------------------------------------

  ghost function Tokens(f: Offered, toConsumer: bool, q: seq<Message>): seq<Message> {
    if q == [] then []
    else (if Concerns(f, toConsumer, q[0]) then [q[0]] else []) + Tokens(f, toConsumer, q[1..])
  }

  lemma {:induction false} TokensOfConcat(f: Offered, c: bool, q: seq<Message>, r: seq<Message>)
    ensures Tokens(f, c, q + r) == Tokens(f, c, q) + Tokens(f, c, r)
  {
    if q == [] {
      assert q + r == r;
    } else {
      assert (q + r)[1..] == q[1..] + r;
      TokensOfConcat(f, c, q[1..], r);
    }
  }

  lemma TokensOfOne(f: Offered, c: bool, m: Message)
    ensures Tokens(f, c, [m]) == if Concerns(f, c, m) then [m] else []
  {
    assert [m][1..] == [];
  }

  lemma TokensAfterSend(f: Offered, c: bool, ch: Channel, m: Message)
    ensures Tokens(f, c, Queue(Sent(ch, [m])))
         == Tokens(f, c, Queue(ch)) + if Concerns(f, c, m) then [m] else []
  {
    assert Queue(Sent(ch, [m])) == Queue(ch) + [m];
    TokensOfConcat(f, c, Queue(ch), [m]);
    TokensOfOne(f, c, m);
  }

  lemma TokensAfterDeliver(f: Offered, c: bool, ch: Channel)
    requires ch.wire != []
    requires |Tokens(f, c, Queue(ch))| <= 1
    ensures var before, after := Tokens(f, c, Queue(ch)), Tokens(f, c, Queue(Delivered(ch)));
      after == before || after == []
    ensures HasRoom(ch.stream) ==> Queue(Delivered(ch)) == Queue(ch)
  {
    var b, m, rest := ch.stream.buffer, ch.wire[0], ch.wire[1..];
    assert Queue(ch) == b + ([m] + rest);
    TokensOfConcat(f, c, b, [m] + rest);
    TokensOfConcat(f, c, [m], rest);
    TokensOfConcat(f, c, b, rest);
    if HasRoom(ch.stream) {
      assert Queue(Delivered(ch)) == Queue(ch);
    } else {
      assert Queue(Delivered(ch)) == b + rest;
      assert Tokens(f, c, [m]) == [] ==> [] + Tokens(f, c, rest) == Tokens(f, c, rest);
    }
  }

  lemma TokensAfterReceive(f: Offered, c: bool, ch: Channel, m: Message)
    requires Front(ch.stream) == Item(m)
    ensures Tokens(f, c, Queue(ch))
         == (if Concerns(f, c, m) then [m] else []) + Tokens(f, c, Queue(Received(ch, Got(m))))
  {
    assert Queue(ch)[1..] == Queue(Received(ch, Got(m)));
  }

  // ---------------------------------------------------------------------
  // Safety in every run
  // ---------------------------------------------------------------------

  function Bound(c: Consume): Option<string> {
    match c
    case AwaitingReady => None
    case Consuming(id, _) => Some(id)
    case ConsumeDone(bound, _, _) => bound
  }

  function Taking(c: Consume): seq<Option<Payload>> {
    if c.AwaitingReady? then [] else c.got
  }

  function Published(o: Offer): nat {
    if o.Announcing? then 0 else o.published
  }

  function Outcomes(f: Offered, k: nat): seq<Option<Payload>>
    requires k <= |f.items|
  {
    seq(k, i requires 0 <= i < k => Some(f.items[i]))
  }

  ghost predicate OfferOk(f: Offered, o: Offer) {
    && Published(o) <= |f.items|
    && (o.Serving? ==> o.idx == o.published)
    && (o.OfferDone? && o.outcome == Returned ==> o.published == |f.items|)
  }

  /** The invariant, over the parties and the tokens between them. */
  ghost predicate InStep(f: Offered, o: Offer, c: Consume, pulls: seq<Message>, tokens: seq<Message>) {
    var got, published := Taking(c), Published(o);
    && OfferOk(f, o)
    && if Bound(c) == Some(f.id) then
         && !o.Announcing?
         && |got| <= published <= |got| + 1
         && got == Outcomes(f, |got|)
         && |pulls| + |tokens| <= 1
         && (pulls != [] ==> published == |got|)
         && (tokens != [] ==>
              if tokens[0] == EndOf(f) then published == |got| && o == OfferDone(|f.items|, Returned)
              else published == |got| + 1 && tokens[0] == ItemOf(f, |got|))
         && (c.ConsumeDone? && c.outcome == Returned ==>
              |got| == |f.items| && o == OfferDone(|f.items|, Returned))
       else
         && published == 0 && pulls == []
         && (tokens == [] || (tokens == [ReadyFor(f)] && !o.Announcing?))
  }

  ghost predicate Inv(s: System) {
    && WellNamed(s.f)
    && InStep(s.f, s.offer, s.consume, Tokens(s.f, false, Queue(s.pulls)), Tokens(s.f, true, Queue(s.source)))
  }

  /** Without a misnamed item, nothing the offerer publishes comes back as a pull. */
  lemma EchoIsNoToken(f: Offered, o: Offer, w: Wait, ok: bool, ch: Channel)
    requires WellNamed(f) && o.Serving?
    ensures var (_, ms) := Served(f, o, w, ok);
      Tokens(f, false, Queue(Sent(ch, Echo(ms)))) == Tokens(f, false, Queue(ch))
  {
    var (_, ms) := Served(f, o, w, ok);
    hide Tokens;
    if Echo(ms) == [] {
      assert Sent(ch, Echo(ms)) == ch;
    } else {
      TokensAfterSend(f, false, ch, ms[0]);
      assert Echo(ms) == [ms[0]];
    }
  }

  lemma OffererKeepsInv(s: System, w: Wait, ok: bool)
    requires Inv(s) && Enabled(s, Offerer(w, ok))
    ensures Inv(Step(s, Offerer(w, ok)))
  {
    hide Tokens, Consumed;
    var f := s.f;
    EchoIsNoToken(f, s.offer, w, ok, Received(s.pulls, w));
    hide Echo;
    if w.Got? {
      TokensAfterReceive(f, false, s.pulls, w.message);
      if IsPull(w.message, f.id) && ok {
        TokensAfterSend(f, true, s.source, if s.offer.idx < |f.items| then ItemOf(f, s.offer.idx) else EndOf(f));
      } else {
        assert Sent(s.source, []) == s.source;
      }
    } else {
      assert Sent(s.source, []) == s.source;
    }
  }

  /** What a consumer turn does to the tokens on either channel. */
  lemma ConsumerMovesTokens(s: System, w: Wait, ok: bool)
    requires Enabled(s, Consumer(w, ok))
    ensures var e := Step(s, Consumer(w, ok));
      var (_, ms) := Consumed(s.f.kind, s.consume, w, ok);
      && Tokens(s.f, true, Queue(s.source))
         == (if w.Got? && Concerns(s.f, true, w.message) then [w.message] else []) + Tokens(s.f, true, Queue(e.source))
      && Tokens(s.f, false, Queue(e.pulls))
         == Tokens(s.f, false, Queue(s.pulls)) + (if ms == [PullFor(s.f.id)] then ms else [])
  {
    hide Tokens, Served;
    var (_, ms) := Consumed(s.f.kind, s.consume, w, ok);
    if w.Got? {
      TokensAfterReceive(s.f, true, s.source, w.message);
    }
    if ms == [] {
      assert Sent(s.pulls, ms) == s.pulls;
    } else {
      TokensAfterSend(s.f, false, s.pulls, ms[0]);
      assert ms == [ms[0]];
    }
  }

  /** One consumer turn with `tokens'` left behind on the source channel. */
  lemma TurnStaysInStep(f: Offered, o: Offer, c: Consume, w: Wait, ok: bool,
                        pulls: seq<Message>, tokens: seq<Message>, tokens': seq<Message>)
    requires WellNamed(f) && InStep(f, o, c, pulls, tokens) && !c.ConsumeDone?
    requires tokens == (if w.Got? && Concerns(f, true, w.message) then [w.message] else []) + tokens'
    ensures var (c', ms) := Consumed(f.kind, c, w, ok);
      InStep(f, o, c', pulls + (if ms == [PullFor(f.id)] then ms else []), tokens')
  {
    if c.Consuming? && c.id == f.id && w.Got? && Concerns(f, true, w.message) {
      var m := w.message;
      assert m == tokens[0] && tokens' == [] && pulls == [];
      if m != EndOf(f) {
        assert m == ItemOf(f, |c.got|) && !IsEnd(m, f.id) && IsItem(m, f.kind, f.id);
        assert c.got + [m.payload] == Outcomes(f, |c.got| + 1);
      }
    }
  }

  lemma ConsumerKeepsInv(s: System, w: Wait, ok: bool)
    requires Inv(s) && Enabled(s, Consumer(w, ok))
    ensures Inv(Step(s, Consumer(w, ok)))
  {
    ConsumerMovesTokens(s, w, ok);
    var e := Step(s, Consumer(w, ok));
    TurnStaysInStep(s.f, s.offer, s.consume, w, ok, Tokens(s.f, false, Queue(s.pulls)),
                    Tokens(s.f, true, Queue(s.source)), Tokens(s.f, true, Queue(e.source)));
  }

  lemma StepKeepsInv(s: System, a: Action)
    requires Inv(s) && Enabled(s, a)
    ensures Inv(Step(s, a))
  {
    var f := s.f;
    match a {
      case Announce(ok) =>
        if ok {
          TokensAfterSend(f, true, s.source, ReadyFor(f));
        } else {
          assert Sent(s.source, []) == s.source;
        }
      case Offerer(w, ok) => OffererKeepsInv(s, w, ok);
      case Consumer(w, ok) => ConsumerKeepsInv(s, w, ok);
      case DeliverPull => TokensAfterDeliver(f, false, s.pulls);
      case DeliverSource => TokensAfterDeliver(f, true, s.source);
      case ForeignPull(m) => TokensAfterSend(f, false, s.pulls, m);
      case ForeignSource(m) => TokensAfterSend(f, true, s.source, m);
      case ClosePulls =>
      case CloseSource =>
    }
  }

  lemma {:induction false} RunKeepsInv(s: System, run: seq<Action>)
    requires Inv(s) && Run(s, run)
    ensures Inv(After(s, run)) && After(s, run).f == s.f
    decreases |run|
  {
    if run != [] {
      StepKeepsInv(s, run[0]);
      RunKeepsInv(Step(s, run[0]), run[1..]);
    }
  }

  /** A consumer bound to this stream has passed exactly a prefix of the offered
      items to onItem, at most one item behind what was published, with at most one
      pull, item or end outstanding; one that returned has had every item, from an
      offerer that returned; and with the consumer unbound, or bound to another
      stream, no item was published. */
  ghost predicate Safe(e: System) {
    var got := Taking(e.consume);
    if Bound(e.consume) == Some(e.f.id) then
      && |got| <= Published(e.offer) <= |got| + 1
      && Published(e.offer) <= |e.f.items|
      && got == Outcomes(e.f, |got|)
      && |Tokens(e.f, false, Queue(e.pulls))| + |Tokens(e.f, true, Queue(e.source))| <= 1
      && (e.consume.ConsumeDone? && e.consume.outcome == Returned ==>
           |got| == |e.f.items| && e.offer == OfferDone(|e.f.items|, Returned))
    else Published(e.offer) == 0
  }

  /** The protocol is safe in every interleaving, with drops, timeouts, closes,
      failed publishes, echoes and foreign messages. */
  lemma PullStreamIsSafe(s: System, run: seq<Action>)
    requires Init(s) && Run(s, run)
    ensures After(s, run).f == s.f && Safe(After(s, run))
  {
    assert Queue(s.pulls) == [] && Queue(s.source) == [];
    RunKeepsInv(s, run);
  }

  // ---------------------------------------------------------------------
  // Runs without faults
  // ---------------------------------------------------------------------

  /** No drop, timeout, cancel, close or publish error. Foreign messages may be
      anything, other streams of the same type included. */
  predicate Faultless(s: System, a: Action) {
    match a
    case Announce(ok) => ok
    case Offerer(w, ok) => w.Got? && ok
    case Consumer(w, ok) => w.Got? && ok
    case DeliverPull => HasRoom(s.pulls.stream)
    case DeliverSource => HasRoom(s.source.stream)
    case ForeignPull(_) => true
    case ForeignSource(_) => true
    case _ => false
  }

  ghost predicate FaultlessRun(s: System, run: seq<Action>)
    decreases |run|
  {
    run == [] || (Enabled(s, run[0]) && Faultless(s, run[0]) && FaultlessRun(Step(s, run[0]), run[1..]))
  }

  lemma {:induction false} FaultlessRunIsRun(s: System, run: seq<Action>)
    requires FaultlessRun(s, run)
    ensures Run(s, run)
    decreases |run|
  {
    if run != [] {
      FaultlessRunIsRun(Step(s, run[0]), run[1..]);
    }
  }

  predicate IsForeign(a: Action) { a.ForeignPull? || a.ForeignSource? }

  function Foreigns(run: seq<Action>): nat {
    if run == [] then 0 else (if IsForeign(run[0]) then 1 else 0) + Foreigns(run[1..])
  }

  /** The copies of k items the engine delivers: an item of type stream.pull also
      comes back to the offerer. */
  function Copies(f: Offered, k: int): int { if f.kind == PULL then 2 * k else k }

  /** Messages still to be delivered to the two parties. */
  function Outstanding(s: System): int {
    var n := |s.f.items|;
    (match s.offer
     case Announcing => Copies(s.f, n) + 2
     case Serving(_, idx) => Copies(s.f, n - idx) + 1
     case OfferDone(_, _) => 0)
    + (match s.consume
       case AwaitingReady => n + 1
       case Consuming(id, got) => if id == s.f.id then n - |got| else 0
       case ConsumeDone(_, _, _) => 0)
  }

  /** What is left to do: two hops for each message still to come or on a wire,
      one for each buffered, and the announcement itself. */
  function Work(s: System): int {
    2 * Outstanding(s) + 2 * (|s.pulls.wire| + |s.source.wire|)
    + |s.pulls.stream.buffer| + |s.source.stream.buffer| + (if s.offer.Announcing? then 1 else 0)
  }

  ghost predicate Finished(s: System) {
    && s.offer == OfferDone(|s.f.items|, Returned)
    && s.consume == ConsumeDone(Some(s.f.id), Outcomes(s.f, |s.f.items|), Returned)
  }

  /** In a faultless run exactly one token is always on its way. */
  ghost predicate OneToken(f: Offered, o: Offer, c: Consume, pulls: seq<Message>, tokens: seq<Message>) {
    match c
    case AwaitingReady => o == Announcing || (o == Serving(0, 0) && tokens == [ReadyFor(f)])
    case Consuming(id, _) =>
      id == f.id && |pulls| + |tokens| == 1 && (o.Serving? || (o.OfferDone? && tokens == [EndOf(f)]))
    case ConsumeDone(id, _, outcome) => id == Some(f.id) && outcome == Returned
  }

  /** The consumer is not bound to another stream. */
  ghost predicate Ours(s: System) { Bound(s.consume) == None || Bound(s.consume) == Some(s.f.id) }

  ghost predicate Flowing(ch: Channel) {
    !ch.stream.closed && ch.stream.capacity > 0
  }

  ghost predicate GoodInv(s: System) {
    && Inv(s) && Flowing(s.pulls) && Flowing(s.source)
    && (Ours(s) ==>
          OneToken(s.f, s.offer, s.consume, Tokens(s.f, false, Queue(s.pulls)), Tokens(s.f, true, Queue(s.source))))
  }

  lemma OffererLessensWork(s: System, m: Message)
    requires Enabled(s, Offerer(Got(m), true)) && OfferOk(s.f, s.offer)
    ensures Work(Step(s, Offerer(Got(m), true))) < Work(s)
  {
  }

  /** What an offerer turn does to the tokens on either channel. */
  lemma OffererMovesTokens(s: System, m: Message)
    requires WellNamed(s.f) && Enabled(s, Offerer(Got(m), true))
    ensures var e := Step(s, Offerer(Got(m), true));
      var (_, ms) := Served(s.f, s.offer, Got(m), true);
      && Tokens(s.f, false, Queue(s.pulls))
         == (if Concerns(s.f, false, m) then [m] else []) + Tokens(s.f, false, Queue(e.pulls))
      && Tokens(s.f, true, Queue(e.source)) == Tokens(s.f, true, Queue(s.source)) + ms
  {
    hide Tokens, Consumed;
    EchoIsNoToken(s.f, s.offer, Got(m), true, Received(s.pulls, Got(m)));
    hide Echo;
    TokensAfterReceive(s.f, false, s.pulls, m);
    var (_, ms) := Served(s.f, s.offer, Got(m), true);
    if ms == [] {
      assert Sent(s.source, ms) == s.source;
    } else {
      TokensAfterSend(s.f, true, s.source, ms[0]);
      assert ms == [ms[0]];
    }
  }

  lemma OffererTurnKeepsOneToken(f: Offered, o: Offer, c: Consume, m: Message,
                                 pulls: seq<Message>, pulls': seq<Message>, tokens: seq<Message>)
    requires o.Serving? && OneToken(f, o, c, pulls, tokens)
    requires c.AwaitingReady? ==> pulls == []
    requires pulls == (if Concerns(f, false, m) then [m] else []) + pulls'
    ensures var (o', ms) := Served(f, o, Got(m), true);
      OneToken(f, o', c, pulls', tokens + ms)
  {
    assert tokens + [] == tokens;
    if Concerns(f, false, m) {
      assert m == pulls[0] && |pulls| == 1 + |pulls'|;
    }
  }

  lemma OffererKeepsGoodInv(s: System, m: Message)
    requires GoodInv(s) && Enabled(s, Offerer(Got(m), true))
    ensures GoodInv(Step(s, Offerer(Got(m), true)))
  {
    var e := Step(s, Offerer(Got(m), true));
    StepKeepsInv(s, Offerer(Got(m), true));
    OffererMovesTokens(s, m);
    if Ours(s) {
      OffererTurnKeepsOneToken(s.f, s.offer, s.consume, m, Tokens(s.f, false, Queue(s.pulls)),
                               Tokens(s.f, false, Queue(e.pulls)), Tokens(s.f, true, Queue(s.source)));
    }
    hide InStep, Tokens, OneToken;
  }

  /** One consumer turn in a faultless run, given that the ready it may take is this
      stream's. */
  lemma TurnKeepsOneToken(f: Offered, o: Offer, c: Consume, m: Message,
                          pulls: seq<Message>, tokens: seq<Message>, tokens': seq<Message>)
    requires WellNamed(f) && InStep(f, o, c, pulls, tokens) && OneToken(f, o, c, pulls, tokens) && !c.ConsumeDone?
    requires tokens == (if Concerns(f, true, m) then [m] else []) + tokens'
    requires c.AwaitingReady? && IsReady(m, f.kind) ==> Concerns(f, true, m)
    ensures var (c', ms) := Consumed(f.kind, c, Got(m), true);
      OneToken(f, o, c', pulls + (if ms == [PullFor(f.id)] then ms else []), tokens')
  {
    if Concerns(f, true, m) {
      assert m == tokens[0] && tokens' == [];
    }
  }

  lemma ConsumerKeepsGoodInv(s: System, m: Message)
    requires GoodInv(s) && Enabled(s, Consumer(Got(m), true))
    ensures GoodInv(Step(s, Consumer(Got(m), true)))
  {
    var e := Step(s, Consumer(Got(m), true));
    ConsumerKeepsInv(s, Got(m), true);
    ConsumerMovesTokens(s, Got(m), true);
    hide InStep;
    if Ours(e) {
      TurnKeepsOneToken(s.f, s.offer, s.consume, m, Tokens(s.f, false, Queue(s.pulls)),
                        Tokens(s.f, true, Queue(s.source)), Tokens(s.f, true, Queue(e.source)));
    }
  }

  lemma ConsumerLessensWork(s: System, m: Message)
    requires Enabled(s, Consumer(Got(m), true)) && Ours(s)
    requires |Taking(s.consume)| <= |s.f.items|
    ensures Work(Step(s, Consumer(Got(m), true))) < Work(s)
  {
  }

  lemma DeliveryKeepsGoodInv(s: System, a: Action)
    requires GoodInv(s) && Enabled(s, a) && Faultless(s, a) && (a.DeliverPull? || a.DeliverSource?)
    ensures GoodInv(Step(s, a)) && Work(Step(s, a)) < Work(s)
  {
    if a.DeliverPull? {
      TokensAfterDeliver(s.f, false, s.pulls);
    } else {
      TokensAfterDeliver(s.f, true, s.source);
    }
  }

  lemma ForeignPullKeepsGoodInv(s: System, m: Message)
    requires GoodInv(s) && Enabled(s, ForeignPull(m))
    ensures GoodInv(Step(s, ForeignPull(m))) && Work(Step(s, ForeignPull(m))) <= Work(s) + 2
  {
    TokensAfterSend(s.f, false, s.pulls, m);
  }

  lemma ForeignSourceKeepsGoodInv(s: System, m: Message)
    requires GoodInv(s) && Enabled(s, ForeignSource(m)) && Faultless(s, ForeignSource(m))
    ensures GoodInv(Step(s, ForeignSource(m))) && Work(Step(s, ForeignSource(m))) <= Work(s) + 2
  {
    TokensAfterSend(s.f, true, s.source, m);
  }

  lemma AnnouncingKeepsGoodInv(s: System)
    requires GoodInv(s) && Enabled(s, Announce(true))
    ensures GoodInv(Step(s, Announce(true))) && Work(Step(s, Announce(true))) < Work(s)
  {
    StepKeepsInv(s, Announce(true));
    TokensAfterSend(s.f, true, s.source, ReadyFor(s.f));
  }

  lemma FaultlessStepKeepsGoodInv(s: System, a: Action)
    requires GoodInv(s) && Enabled(s, a) && Faultless(s, a)
    ensures GoodInv(Step(s, a)) && (Ours(Step(s, a)) ==> Ours(s))
    ensures Ours(s) ==> Work(Step(s, a)) <= Work(s) + (if IsForeign(a) then 2 else -1)
  {
    match a {
      case Offerer(w, _) =>
        OffererKeepsGoodInv(s, w.message);
        OffererLessensWork(s, w.message);
      case Consumer(w, _) =>
        ConsumerKeepsGoodInv(s, w.message);
        if Ours(s) {
          ConsumerLessensWork(s, w.message);
        }
      case DeliverPull => DeliveryKeepsGoodInv(s, a);
      case DeliverSource => DeliveryKeepsGoodInv(s, a);
      case Announce(_) => AnnouncingKeepsGoodInv(s);
      case ForeignPull(m) => ForeignPullKeepsGoodInv(s, m);
      case ForeignSource(m) => ForeignSourceKeepsGoodInv(s, m);
    }
  }

  lemma {:induction false} FaultlessRunKeepsGoodInv(s: System, run: seq<Action>)
    requires GoodInv(s) && FaultlessRun(s, run)
    ensures Run(s, run) && GoodInv(After(s, run)) && After(s, run).f == s.f
    ensures Ours(After(s, run)) ==> Ours(s) && |run| + Work(After(s, run)) <= Work(s) + 3 * Foreigns(run)
    decreases |run|
  {
    FaultlessRunIsRun(s, run);
    if run != [] {
      FaultlessStepKeepsGoodInv(s, run[0]);
      FaultlessRunKeepsGoodInv(Step(s, run[0]), run[1..]);
    }
  }

  /** A faultless run that has not finished, its consumer not bound elsewhere, can go
      on without outside help. */
  lemma UnfinishedCanStep(s: System) returns (a: Action)
    requires GoodInv(s) && Ours(s) && !Finished(s)
    ensures Enabled(s, a) && Faultless(s, a) && !IsForeign(a)
  {
    if s.offer.Announcing? {
      return Announce(true);
    }
    if Tokens(s.f, false, Queue(s.pulls)) != [] {
      if s.pulls.stream.buffer != [] {
        return Offerer(Got(s.pulls.stream.buffer[0]), true);
      }
      return DeliverPull;
    }
    if s.source.stream.buffer != [] {
      return Consumer(Got(s.source.stream.buffer[0]), true);
    }
    return DeliverSource;
  }

  // ---------------------------------------------------------------------
  // Every faultless run is finite
  // ---------------------------------------------------------------------

  /** The messages for the consumer that are not about this stream: one bound
      elsewhere may answer each with a pull. */
  ghost function Strays(s: System): int { |Queue(s.source)| - |Tokens(s.f, true, Queue(s.source))| }

  lemma {:induction false} TokensAreFewer(f: Offered, c: bool, q: seq<Message>)
    ensures |Tokens(f, c, q)| <= |q|
  {
    if q != [] {
      TokensAreFewer(f, c, q[1..]);
    }
  }

  ghost function Burden(s: System): int { Work(s) + 2 * Strays(s) }

  /** Bound elsewhere, the consumer answers at most the messages that are not about
      this stream. */
  lemma ConsumerElsewhere(s: System, m: Message)
    requires Enabled(s, Consumer(Got(m), true)) && !Ours(s)
    requires Concerns(s.f, true, m) ==> m == ReadyFor(s.f)
    ensures Work(Step(s, Consumer(Got(m), true))) <= Work(s) + (if Concerns(s.f, true, m) then -1 else 1)
  {
  }

  lemma StraysAfterConsumer(s: System, m: Message)
    requires Enabled(s, Consumer(Got(m), true))
    ensures Strays(Step(s, Consumer(Got(m), true))) == Strays(s) - if Concerns(s.f, true, m) then 0 else 1
    ensures Concerns(s.f, true, m) ==> m in Tokens(s.f, true, Queue(s.source))
  {
    TokensAfterReceive(s.f, true, s.source, m);
    hide Tokens, Consumed;
    assert Queue(Received(s.source, Got(m))) == Queue(s.source)[1..];
  }

  lemma ConsumerLessensBurden(s: System, m: Message)
    requires GoodInv(s) && Enabled(s, Consumer(Got(m), true))
    ensures Burden(Step(s, Consumer(Got(m), true))) < Burden(s)
  {
    StraysAfterConsumer(s, m);
    if Ours(s) {
      ConsumerLessensWork(s, m);
    } else {
      ConsumerElsewhere(s, m);
    }
    hide Work, Strays, Step;
  }

  lemma OffererLessensBurden(s: System, m: Message)
    requires GoodInv(s) && Enabled(s, Offerer(Got(m), true))
    ensures Burden(Step(s, Offerer(Got(m), true))) < Burden(s)
  {
    OffererLessensWork(s, m);
    hide Tokens, OneToken, Work, Echo;
    var (_, ms) := Served(s.f, s.offer, Got(m), true);
    if ms == [] {
      assert Sent(s.source, ms) == s.source;
    } else {
      TokensAfterSend(s.f, true, s.source, ms[0]);
      assert ms == [ms[0]];
    }
  }

  lemma DeliveryLessensBurden(s: System, a: Action)
    requires GoodInv(s) && Enabled(s, a) && Faultless(s, a) && (a.DeliverPull? || a.DeliverSource?)
    ensures Burden(Step(s, a)) < Burden(s)
  {
    if a.DeliverSource? {
      TokensAfterDeliver(s.f, true, s.source);
    }
    DeliveryKeepsGoodInv(s, a);
    hide Tokens, OneToken, Work, GoodInv;
  }

  lemma SendingAddsBurden(s: System, a: Action)
    requires GoodInv(s) && Enabled(s, a) && Faultless(s, a) && (a.Announce? || IsForeign(a))
    ensures Burden(Step(s, a)) <= Burden(s) + (if IsForeign(a) then 4 else -1)
  {
    match a {
      case Announce(_) =>
        AnnouncingKeepsGoodInv(s);
        TokensAfterSend(s.f, true, s.source, ReadyFor(s.f));
      case ForeignPull(m) => ForeignPullKeepsGoodInv(s, m);
      case ForeignSource(m) =>
        ForeignSourceKeepsGoodInv(s, m);
        TokensAfterSend(s.f, true, s.source, m);
    }
    hide Tokens, OneToken, Work, GoodInv;
  }

  lemma StepLessensBurden(s: System, a: Action)
    requires GoodInv(s) && Enabled(s, a) && Faultless(s, a)
    ensures Burden(Step(s, a)) <= Burden(s) + (if IsForeign(a) then 4 else -1)
  {
    hide GoodInv, Burden, Step, Enabled;
    match a {
      case Offerer(w, _) => OffererLessensBurden(s, w.message);
      case Consumer(w, _) => ConsumerLessensBurden(s, w.message);
      case DeliverPull => DeliveryLessensBurden(s, a);
      case DeliverSource => DeliveryLessensBurden(s, a);
      case _ => SendingAddsBurden(s, a);
    }
  }

  lemma {:induction false} RunLessensBurden(s: System, run: seq<Action>)
    requires GoodInv(s) && FaultlessRun(s, run)
    ensures Run(s, run) && GoodInv(After(s, run))
    ensures |run| + Burden(After(s, run)) <= Burden(s) + 5 * Foreigns(run)
    decreases |run|
  {
    FaultlessRunIsRun(s, run);
    hide GoodInv, Burden, Step, Enabled, Faultless;
    if run != [] {
      FaultlessStepKeepsGoodInv(s, run[0]);
      StepLessensBurden(s, run[0]);
      RunLessensBurden(Step(s, run[0]), run[1..]);
    }
  }

  /** Whatever stream the consumer binds to, a faultless run is finite: it makes at
      most five steps for each foreign message, beside the bound of its own. */
  lemma FaultlessRunsAreFinite(s: System, run: seq<Action>)
    requires Init(s) && FaultlessRun(s, run) && Flowing(s.pulls) && Flowing(s.source)
    ensures |run| <= 4 * |s.f.items| + 7 + (if s.f.kind == PULL then 2 * |s.f.items| else 0) + 5 * Foreigns(run)
  {
    assert Queue(s.pulls) == [] && Queue(s.source) == [];
    RunLessensBurden(s, run);
    var e := After(s, run);
    TokensAreFewer(e.f, true, Queue(e.source));
    assert Work(e) >= 0;
  }

  // ---------------------------------------------------------------------
  // Where a faultless run ends
  // ---------------------------------------------------------------------

  /** The run's consumer takes a message that announces the stream, and its type. */
  predicate TakesReady(a: Action, kind: string, id: string) {
    a.Consumer? && a.w.Got? && Announces(a.w.message, kind, id)
  }

  /** The stream of the first ready of the type that the run's consumer takes. */
  function FirstReady(kind: string, run: seq<Action>): Option<string> {
    if run == [] then None
    else
      var id := if run[0].Consumer? && run[0].w.Got? && run[0].w.message.payload.Some?
        then run[0].w.message.payload.value.streamId else None;
      if id.Some? && TakesReady(run[0], kind, id.value) then id else FirstReady(kind, run[1..])
  }

  /** Step k of the run takes a ready for stream id, and no earlier step takes one of
      the type, whichever stream it names. */
  ghost predicate TakesFirst(run: seq<Action>, k: nat, kind: string, id: string) {
    && k < |run| && TakesReady(run[k], kind, id)
    && forall j, other :: 0 <= j < k ==> !TakesReady(run[j], kind, other)
  }

  lemma {:induction false} FirstReadyIsFirst(kind: string, run: seq<Action>, id: string)
    ensures FirstReady(kind, run) == Some(id) <==> exists k: nat :: TakesFirst(run, k, kind, id)
  {
    if run != [] {
      var rest := run[1..];
      FirstReadyIsFirst(kind, rest, id);
      assert (forall other :: !TakesReady(run[0], kind, other)) ==> FirstReady(kind, run) == FirstReady(kind, rest);
      if k: nat :| TakesFirst(run, k, kind, id) {
        if k > 0 {
          assert forall j :: 0 <= j < |rest| ==> rest[j] == run[j + 1];
          assert TakesFirst(rest, k - 1, kind, id);
        }
      }
      if FirstReady(kind, run) == Some(id) {
        if TakesReady(run[0], kind, id) {
          assert TakesFirst(run, 0, kind, id);
        } else {
          var k: nat :| TakesFirst(rest, k, kind, id);
          assert forall j :: 0 < j < |run| ==> run[j] == rest[j - 1];
          assert TakesFirst(run, k + 1, kind, id);
        }
      }
    }
  }

  lemma {:induction false} BindingStays(s: System, run: seq<Action>)
    requires Run(s, run) && Bound(s.consume).Some?
    ensures Bound(After(s, run).consume) == Bound(s.consume)
    decreases |run|
  {
    if run != [] {
      BindingStays(Step(s, run[0]), run[1..]);
    }
  }

  lemma {:induction false} FirstReadyBinds(s: System, run: seq<Action>)
    requires Run(s, run) && (s.consume.AwaitingReady? || (s.consume.ConsumeDone? && Bound(s.consume) == None))
    ensures Bound(After(s, run).consume) == FirstReady(s.f.kind, run)
    decreases |run|
  {
    if run != [] {
      var next := Step(s, run[0]);
      if Bound(next.consume).Some? {
        BindingStays(next, run[1..]);
      } else {
        FirstReadyBinds(next, run[1..]);
      }
    }
  }

  /** A consumer that waits for a ready is bound to a stream after a run if and only if
      some step of the run took a ready announcing its own type and naming that stream,
      with no ready of the type, of whatever stream, taken before. */
  lemma BoundToTheFirstReady(s: System, run: seq<Action>, id: string)
    requires Run(s, run) && s.consume.AwaitingReady?
    ensures Bound(After(s, run).consume) == Some(id) <==> exists k: nat :: TakesFirst(run, k, s.f.kind, id)
  {
    FirstReadyBinds(s, run);
    FirstReadyIsFirst(s.f.kind, run, id);
  }

  /** The run's consumer took no ready of the type before this stream's own. */
  predicate BindsToOurs(f: Offered, run: seq<Action>) {
    FirstReady(f.kind, run) == None || FirstReady(f.kind, run) == Some(f.id)
  }

  /** The run cannot go on without outside help. */
  ghost predicate Stuck(s: System) { forall a :: Enabled(s, a) && Faultless(s, a) ==> IsForeign(a) }

  /** A faultless run whose consumer takes this stream's ready first makes at most four
      protocol steps an item and seven more, two more an item where items come back to
      the offerer, and three for each foreign message it carries. And where a faultless
      run cannot go on, both calls have returned exactly the number of items, all
      consumed in order, if and only if the consumer took this stream's ready first. */
  lemma FaultlessRunsFinish(s: System, run: seq<Action>)
    requires Init(s) && FaultlessRun(s, run) && Flowing(s.pulls) && Flowing(s.source)
    ensures Run(s, run) && After(s, run).f == s.f
    ensures BindsToOurs(s.f, run) ==>
      |run| <= 4 * |s.f.items| + 7 + (if s.f.kind == PULL then 2 * |s.f.items| else 0) + 3 * Foreigns(run)
    ensures Stuck(After(s, run)) ==> (Finished(After(s, run)) <==> BindsToOurs(s.f, run))
  {
    assert Queue(s.pulls) == [] && Queue(s.source) == [];
    FaultlessRunKeepsGoodInv(s, run);
    FirstReadyBinds(s, run);
    var e := After(s, run);
    assert Ours(e) <==> BindsToOurs(s.f, run);
    assert Ours(e) ==> Work(e) >= 0;
    if Ours(e) && !Finished(e) {
      var a := UnfinishedCanStep(e);
      assert Enabled(e, a) && Faultless(e, a) && !IsForeign(a);
    }
  }

  // ---------------------------------------------------------------------
  // The parties run the two loops
  // ---------------------------------------------------------------------

  ghost function OfferTurns(run: seq<Action>): (seq<Wait>, seq<bool>) {
    if run == [] then ([], [])
    else
      var (ws, oks) := OfferTurns(run[1..]);
      if run[0].Offerer? then ([run[0].w] + ws, [run[0].ok] + oks) else (ws, oks)
  }

  ghost function ConsumeTurns(run: seq<Action>): (seq<Wait>, seq<bool>) {
    if run == [] then ([], [])
    else
      var (ws, oks) := ConsumeTurns(run[1..]);
      if run[0].Consumer? then ([run[0].w] + ws, [run[0].ok] + oks) else (ws, oks)
  }

  /** Within any run, each party is where its own loop is after the turns the
      run dealt it: the protocol's states are the loops' states. */
  lemma {:induction false} PartiesRunTheirLoops(s: System, run: seq<Action>)
    requires Run(s, run) && !s.offer.Announcing?
    ensures var (ws, oks) := OfferTurns(run);
      |ws| == |oks| && After(s, run).offer == ServedAll(s.f, s.offer, ws, oks).0
    ensures var (ws, oks) := ConsumeTurns(run);
      |ws| == |oks| && After(s, run).consume == ConsumedAll(s.f.kind, s.consume, ws, oks).0
    decreases |run|
  {
    if run != [] {
      PartiesRunTheirLoops(Step(s, run[0]), run[1..]);
      var (ws, oks) := OfferTurns(run);
      var (vs, cks) := ConsumeTurns(run);
      if run[0].Offerer? {
        assert ws[1..] == OfferTurns(run[1..]).0 && oks[1..] == OfferTurns(run[1..]).1;
      } else if run[0].Consumer? {
        assert vs[1..] == ConsumeTurns(run[1..]).0 && cks[1..] == ConsumeTurns(run[1..]).1;
      }
    }
  }
}
