/** MessageStream of the Go SDK: a closed flag and a bounded Go channel that
    drops the newest message when it is full. */
module Streams {
  const DEFAULT_STREAM_BUFFER_SIZE: nat := 256

  /** The stream as a value: what is buffered, how much fits, whether it ended. */
  datatype Stream<T> = Stream(capacity: nat, buffer: seq<T>, closed: bool)

  datatype Received<T> = Item(message: T) | Ended | WouldBlock

  function New<T>(bufSize: int): Stream<T> {
    Stream(if bufSize <= 0 then DEFAULT_STREAM_BUFFER_SIZE else bufSize, [], false)
  }

  function Pushed<T>(s: Stream<T>, m: T): Stream<T> {
    if !s.closed && |s.buffer| < s.capacity then s.(buffer := s.buffer + [m]) else s
  }

  function Closed<T>(s: Stream<T>): Stream<T> {
    s.(closed := true)
  }

  /** A closed channel still hands over what was buffered before it ended. */
  function Front<T>(s: Stream<T>): Received<T> {
    if s.buffer != [] then Item(s.buffer[0]) else if s.closed then Ended else WouldBlock
  }

  function Taken<T>(s: Stream<T>): Stream<T> {
    if s.buffer != [] then s.(buffer := s.buffer[1..]) else s
  }

  /** Everything in `part`, in order, occurs in `whole`. */
  ghost predicate Subsequence<T>(part: seq<T>, whole: seq<T>) {
    if part == [] then true
    else if whole == [] then false
    else if part[|part| - 1] == whole[|whole| - 1]
         && Subsequence(part[..|part| - 1], whole[..|whole| - 1]) then true
    else Subsequence(part, whole[..|whole| - 1])
  }

  lemma SubsequenceExtends<T>(part: seq<T>, whole: seq<T>, m: T)
    requires Subsequence(part, whole)
    ensures Subsequence(part, whole + [m]) && Subsequence(part + [m], whole + [m])
  {
    assert (whole + [m])[..|whole|] == whole;
    assert (part + [m])[..|part|] == part;
  }

  datatype Use<T> = Push(m: T) | Close | Receive

  /** A stream together with everything ever pushed at it and received from it. */
  datatype History<T> = History(stream: Stream<T>, pushed: seq<T>, received: seq<T>)

  function Used<T>(h: History<T>, u: Use<T>): History<T> {
    match u
    case Push(m) => h.(stream := Pushed(h.stream, m), pushed := h.pushed + [m])
    case Close => h.(stream := Closed(h.stream))
    case Receive =>
      match Front(h.stream)
      case Item(m) => h.(stream := Taken(h.stream), received := h.received + [m])
      case _ => h
  }

  function UsedAll<T>(h: History<T>, uses: seq<Use<T>>): History<T>
    decreases |uses|
  {
    if uses == [] then h else UsedAll(Used(h, uses[0]), uses[1..])
  }

  ghost predicate InOrder<T>(h: History<T>) {
    && |h.stream.buffer| <= h.stream.capacity
    && Subsequence(h.received + h.stream.buffer, h.pushed)
  }

  lemma UseKeepsOrder<T>(h: History<T>, u: Use<T>)
    requires InOrder(h)
    ensures InOrder(Used(h, u))
  {
    var n := Used(h, u);
    match u {
      case Push(m) =>
        SubsequenceExtends(h.received + h.stream.buffer, h.pushed, m);
        assert h.received + (h.stream.buffer + [m]) == (h.received + h.stream.buffer) + [m];
      case Close =>
      case Receive =>
        assert n.received + n.stream.buffer == h.received + h.stream.buffer;
    }
  }

  /** However pushes, a close and receives are mixed, a receiver sees the pushed
      messages in order, with gaps only, and the buffer stays within its bound. */
  lemma {:induction false} ReceivesInOrder<T>(h: History<T>, uses: seq<Use<T>>)
    requires InOrder(h)
    ensures InOrder(UsedAll(h, uses))
    decreases |uses|
  {
    if uses != [] {
      UseKeepsOrder(h, uses[0]);
      ReceivesInOrder(Used(h, uses[0]), uses[1..]);
    }
  }

  /** Once closed, a stream gives back exactly what it had buffered and then
      ends, whatever is pushed meanwhile. */
  lemma {:induction false} ClosedStreamOnlyDrains<T>(h: History<T>, uses: seq<Use<T>>)
    requires h.stream.closed
    ensures var n := UsedAll(h, uses);
      n.stream.closed && n.received + n.stream.buffer == h.received + h.stream.buffer
    decreases |uses|
  {
    if uses != [] {
      var n := Used(h, uses[0]);
      assert n.received + n.stream.buffer == h.received + h.stream.buffer;
      ClosedStreamOnlyDrains(n, uses[1..]);
    }
  }

  /** Pushed at an open stream with nobody receiving, messages fill what room it has:
      the first that fit are kept, in order, and the later ones are dropped. */
  lemma {:induction false} FullStreamDropsTheNewest<T>(h: History<T>, uses: seq<Use<T>>, ms: seq<T>)
    requires !h.stream.closed && |h.stream.buffer| <= h.stream.capacity
    requires |uses| == |ms| && forall i :: 0 <= i < |ms| ==> uses[i] == Push(ms[i])
    ensures var room := h.stream.capacity - |h.stream.buffer|;
      UsedAll(h, uses).stream
      == Stream(h.stream.capacity, h.stream.buffer + ms[..if |ms| <= room then |ms| else room], false)
    decreases |uses|
  {
    if uses != [] {
      var n, room := Used(h, uses[0]), h.stream.capacity - |h.stream.buffer|;
      FullStreamDropsTheNewest(n, uses[1..], ms[1..]);
      if room > 0 {
        var fit := (if |ms| <= room then |ms| else room) - 1;
        assert h.stream.buffer + [ms[0]] + ms[1..][..fit] == h.stream.buffer + ms[..fit + 1];
      } else {
        assert h.stream.buffer + [] == h.stream.buffer;
      }
    }
  }

  /** The stream object. `chClosed` is the Go channel's own closed state: sending
      to it or closing it again once it is set would panic. */
  class MessageStream<T> {
    const capacity: nat
    var ch: seq<T>
    var chClosed: bool
    var closed: bool

    ghost predicate Valid()
      reads this
    {
      chClosed == closed && |ch| <= capacity
    }

    ghost function State(): Stream<T>
      reads this
    {
      Stream(capacity, ch, closed)
    }

    constructor (bufSize: int)
      ensures Valid() && State() == New(bufSize)
      ensures capacity == (if bufSize <= 0 then 256 else bufSize) && ch == [] && !closed
    {
      capacity := if bufSize <= 0 then DEFAULT_STREAM_BUFFER_SIZE else bufSize;
      ch := [];
      chClosed := false;
      closed := false;
    }

    method Push(m: T)
      requires Valid()
      modifies this
      ensures Valid() && State() == Pushed(old(State()), m)
    {
      if closed {
        return;
      }
      if |ch| < capacity {
        assert !chClosed;
        ch := ch + [m];
      }
    }

    /** `notify` says whether the onClose callback runs: on the first close only. */
    method Close() returns (notify: bool)
      requires Valid()
      modifies this
      ensures Valid() && State() == Closed(old(State()))
      ensures notify <==> !old(closed)
    {
      if closed {
        return false;
      }
      closed := true;
      assert !chClosed;
      chClosed := true;
      notify := true;
    }

    /** The receive behind Next and TryNext. */
    method Receive() returns (r: Received<T>)
      requires Valid()
      modifies this
      ensures Valid() && r == Front(old(State())) && State() == Taken(old(State()))
    {
      if |ch| > 0 {
        r := Item(ch[0]);
        ch := ch[1..];
      } else if chClosed {
        r := Ended;
      } else {
        r := WouldBlock;
      }
    }
  }
}
