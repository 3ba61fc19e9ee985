/** Pull-based streaming between two handlers: the loops of StreamOffer and
    StreamConsume, and the protocol they run over two lossy channels. */
module PullStream {
  import opened Options
  import opened Streams

  const READY := "stream.ready"
  const PULL := "stream.pull"
  const END := "stream.end"

  /** A payload map: the two keys the protocol looks at, and the rest of it. */
  datatype Payload = Payload(streamId: Option<string>, announces: Option<string>, content: nat)

  /** A message. `payload` is None for a payload that is not a map; `stream` is
      the metadata's stream_id, None when there is none. */
  datatype Message = Message(kind: string, payload: Option<Payload>, stream: Option<string>)

  /** One offered stream: its id, the data type, and the items. */
  datatype Offered = Offered(id: string, kind: string, items: seq<Payload>)

  function ReadyFor(f: Offered): Message {
    Message(READY, Some(Payload(Some(f.id), Some(f.kind), |f.items|)), None)
  }

  function PullFor(id: string): Message {
    Message(PULL, Some(Payload(Some(id), None, 0)), None)
  }

  function ItemOf(f: Offered, k: nat): Message
    requires k < |f.items|
  {
    Message(f.kind, Some(f.items[k]), Some(f.id))
  }

  function EndOf(f: Offered): Message {
    Message(END, Some(Payload(Some(f.id), None, 0)), None)
  }

  predicate Names(m: Message, kind: string, id: string) {
    m.kind == kind && m.payload.Some? && m.payload.value.streamId == Some(id)
  }

  predicate IsPull(m: Message, id: string) { Names(m, PULL, id) }

  predicate IsEnd(m: Message, id: string) { Names(m, END, id) }

  /** A data item, given that it was not taken for the end of the stream. */
  predicate IsItem(m: Message, kind: string, id: string) {
    m.kind == kind && m.stream == Some(id)
  }

  /** A ready the consumer binds to, whichever stream it announces. */
  predicate IsReady(m: Message, kind: string) {
    m.kind == READY && m.payload.Some? && m.payload.value.announces == Some(kind)
    && m.payload.value.streamId.Some?
  }

  /** What the select of either loop chose. */
  datatype Wait = Cancel | Timeout | StreamClosed | Got(message: Message)

  datatype Outcome = Returned | Cancelled | TimedOut | ConnectionLost | PublishFailed

  // ---------------------------------------------------------------------
  // StreamOffer
  // ---------------------------------------------------------------------

  datatype Offer =
    | Announcing
    | Serving(published: nat, idx: nat)
    | OfferDone(published: nat, outcome: Outcome)

  function Announced(f: Offered, ok: bool): (Offer, seq<Message>) {
    if ok then (Serving(0, 0), [ReadyFor(f)]) else (OfferDone(0, PublishFailed), [])
  }

  /** One turn of the serving loop; `ok` says whether building and publishing a
      message succeeds, should the turn need one. */
  function Served(f: Offered, o: Offer, w: Wait, ok: bool): (Offer, seq<Message>)
    requires o.Serving?
  {
    match w
    case Cancel => (OfferDone(o.published, Cancelled), [])
    case Timeout => (OfferDone(o.published, TimedOut), [])
    case StreamClosed => (OfferDone(o.published, ConnectionLost), [])
    case Got(m) =>
      if !IsPull(m, f.id) then (o, [])
      else if !ok then (OfferDone(o.published, PublishFailed), [])
      else if o.idx < |f.items| then (Serving(o.published + 1, o.idx + 1), [ItemOf(f, o.idx)])
      else (OfferDone(o.published, Returned), [EndOf(f)])
  }

  /** The serving loop over the first turns of a run. */
  function ServedAll(f: Offered, o: Offer, waits: seq<Wait>, oks: seq<bool>): (Offer, seq<Message>)
    requires |oks| == |waits|
    decreases |waits|
  {
    if waits == [] || !o.Serving? then (o, [])
    else
      var (o', sent) := Served(f, o, waits[0], oks[0]);
      var (last, more) := ServedAll(f, o', waits[1..], oks[1..]);
      (last, sent + more)
  }

  /** StreamOffer, run against the turns its select is dealt. When the turns end
      first it is still serving. */
  method StreamOffer(f: Offered, announceOk: bool, waits: seq<Wait>, oks: seq<bool>)
    returns (result: Offer, sent: seq<Message>)
    requires |oks| == |waits|
    ensures var (o, ready) := Announced(f, announceOk);
      var (last, more) := ServedAll(f, o, waits, oks);
      result == last && sent == ready + more
  {
    if !announceOk {
      return OfferDone(0, PublishFailed), [];
    }
    sent := [ReadyFor(f)];
    var published, idx, turn := 0, 0, 0;
    while turn < |waits|
      invariant turn <= |waits|
      invariant var (last, more) := ServedAll(f, Serving(0, 0), waits, oks);
        var (last', more') := ServedAll(f, Serving(published, idx), waits[turn..], oks[turn..]);
        last == last' && [ReadyFor(f)] + more == sent + more'
    {
      var w, ok := waits[turn], oks[turn];
      assert waits[turn..][1..] == waits[turn + 1..] && oks[turn..][1..] == oks[turn + 1..];
      turn := turn + 1;
      match w {
        case Cancel => return OfferDone(published, Cancelled), sent;
        case Timeout => return OfferDone(published, TimedOut), sent;
        case StreamClosed => return OfferDone(published, ConnectionLost), sent;
        case Got(m) =>
          if IsPull(m, f.id) {
            if !ok {
              return OfferDone(published, PublishFailed), sent;
            }
            if idx < |f.items| {
              sent := sent + [ItemOf(f, idx)];
              published := published + 1;
              idx := idx + 1;
            } else {
              sent := sent + [EndOf(f)];
              return OfferDone(published, Returned), sent;
            }
          }
      }
    }
    result := Serving(published, idx);
  }

  // ---------------------------------------------------------------------
  // StreamConsume
  // ---------------------------------------------------------------------

  /** `got` is what onItem was called with, in order; its length is the count. */
  datatype Consume =
    | AwaitingReady
    | Consuming(id: string, got: seq<Option<Payload>>)
    | ConsumeDone(bound: Option<string>, got: seq<Option<Payload>>, outcome: Outcome)

  function Stopped(c: Consume, outcome: Outcome): Consume
    requires !c.ConsumeDone?
  {
    if c.AwaitingReady? then ConsumeDone(None, [], outcome) else ConsumeDone(Some(c.id), c.got, outcome)
  }

  /** One turn of either consumer loop, with the pull it may publish. */
  function Consumed(kind: string, c: Consume, w: Wait, ok: bool): (Consume, seq<Message>)
    requires !c.ConsumeDone?
  {
    match w
    case Cancel => (Stopped(c, Cancelled), [])
    case Timeout => (Stopped(c, TimedOut), [])
    case StreamClosed => (Stopped(c, ConnectionLost), [])
    case Got(m) =>
      if c.AwaitingReady? then
        if !IsReady(m, kind) then (c, [])
        else Pulled(Consuming(m.payload.value.streamId.value, []), ok)
      else if IsEnd(m, c.id) then (Stopped(c, Returned), [])
      else if IsItem(m, kind, c.id) then Pulled(Consuming(c.id, c.got + [m.payload]), ok)
      else (c, [])
  }

  function Pulled(c: Consume, ok: bool): (Consume, seq<Message>)
    requires c.Consuming?
  {
    if ok then (c, [PullFor(c.id)]) else (Stopped(c, PublishFailed), [])
  }

  function ConsumedAll(kind: string, c: Consume, waits: seq<Wait>, oks: seq<bool>): (Consume, seq<Message>)
    requires |oks| == |waits|
    decreases |waits|
  {
    if waits == [] || c.ConsumeDone? then (c, [])
    else
      var (c', sent) := Consumed(kind, c, waits[0], oks[0]);
      var (last, more) := ConsumedAll(kind, c', waits[1..], oks[1..]);
      (last, sent + more)
  }

  /** The first loop of StreamConsume: wait for a ready of the wanted type. */
  method AwaitReady(kind: string, waits: seq<Wait>, oks: seq<bool>)
    returns (result: Consume, turn: nat)
    requires |oks| == |waits|
    ensures turn <= |waits|
    ensures result.Consuming? ==> turn > 0 && result.got == []
    ensures result.AwaitingReady? ==> turn == |waits|
    ensures result.ConsumeDone? ==> result.got == []
    ensures var (last, more) := ConsumedAll(kind, AwaitingReady, waits, oks);
      var (c, pull) := if result.Consuming? then Pulled(result, oks[turn - 1]) else (result, []);
      var (last', more') := ConsumedAll(kind, c, waits[turn..], oks[turn..]);
      last == last' && more == pull + more'
  {
    turn := 0;
    while turn < |waits|
      invariant turn <= |waits|
      invariant var (last, more) := ConsumedAll(kind, AwaitingReady, waits, oks);
        var (last', more') := ConsumedAll(kind, AwaitingReady, waits[turn..], oks[turn..]);
        last == last' && more == more'
    {
      var w := waits[turn];
      assert waits[turn..][1..] == waits[turn + 1..] && oks[turn..][1..] == oks[turn + 1..];
      turn := turn + 1;
      match w {
        case Cancel => return ConsumeDone(None, [], Cancelled), turn;
        case Timeout => return ConsumeDone(None, [], TimedOut), turn;
        case StreamClosed => return ConsumeDone(None, [], ConnectionLost), turn;
        case Got(m) =>
          if m.kind == READY && m.payload.Some? && m.payload.value.announces == Some(kind) {
            if m.payload.value.streamId.Some? {
              return Consuming(m.payload.value.streamId.value, []), turn;
            }
          }
      }
    }
    result := AwaitingReady;
  }

  /** The second loop of StreamConsume: take items, pulling after each. */
  method TakeItems(kind: string, streamId: string, waits: seq<Wait>, oks: seq<bool>)
    returns (result: Consume, sent: seq<Message>)
    requires |oks| == |waits|
    ensures var (last, more) := ConsumedAll(kind, Consuming(streamId, []), waits, oks);
      result == last && sent == more
  {
    sent := [];
    var got, turn := [], 0;
    while turn < |waits|
      invariant turn <= |waits|
      invariant var (last, more) := ConsumedAll(kind, Consuming(streamId, []), waits, oks);
        var (last', more') := ConsumedAll(kind, Consuming(streamId, got), waits[turn..], oks[turn..]);
        last == last' && more == sent + more'
    {
      var w, ok := waits[turn], oks[turn];
      assert waits[turn..][1..] == waits[turn + 1..] && oks[turn..][1..] == oks[turn + 1..];
      turn := turn + 1;
      match w {
        case Cancel => return ConsumeDone(Some(streamId), got, Cancelled), sent;
        case Timeout => return ConsumeDone(Some(streamId), got, TimedOut), sent;
        case StreamClosed => return ConsumeDone(Some(streamId), got, ConnectionLost), sent;
        case Got(m) =>
          if IsEnd(m, streamId) {
            return ConsumeDone(Some(streamId), got, Returned), sent;
          }
          if IsItem(m, kind, streamId) {
            got := got + [m.payload];
            if !ok {
              return ConsumeDone(Some(streamId), got, PublishFailed), sent;
            }
            sent := sent + [PullFor(streamId)];
          }
      }
    }
    result := Consuming(streamId, got);
  }

  /** StreamConsume, run against the turns its two selects are dealt. */
  method StreamConsume(kind: string, waits: seq<Wait>, oks: seq<bool>)
    returns (result: Consume, sent: seq<Message>)
    requires |oks| == |waits|
    ensures var (last, more) := ConsumedAll(kind, AwaitingReady, waits, oks);
      result == last && sent == more
  {
    var turn;
    result, turn := AwaitReady(kind, waits, oks);
    if !result.Consuming? {
      return result, [];
    }
    if !oks[turn - 1] {
      return ConsumeDone(Some(result.id), [], PublishFailed), [];
    }
    var more;
    var id := result.id;
    result, more := TakeItems(kind, id, waits[turn..], oks[turn..]);
    sent := [PullFor(id)] + more;
  }
}
