/** The two locks of a Go client and the life of its message streams, over every
    interleaving of subscribe calls, the read loop's pushes and shutdown, a lost
    connection, streams closed by their users, and the client's own close().

    A thread stops at every lock it takes, so any other thread may run there.
    c.mu guards which stream is registered; each stream's own s.mu guards its
    closed flag and its channel. */
module StreamLocks {
  import opened Options
  import opened Streams

  type Tid = nat
  type Sid = nat

  /** What a thread does once the Close it is running is over. */
  datatype Next = Stop | ThenAsk(s: Sid) | ThenRead

  datatype Pc =
    | Finished
    // subscribeInternal: check, swap the registered stream, send one or two requests
    | CheckWant | CheckHold
    | SwapWant(s: Sid) | SwapHold(s: Sid)
    | AskWant(s: Sid) | AskHold(s: Sid) | Asking(s: Sid)
    // MessageStream.Close and its onClose callback
    | CloseWant(s: Sid, next: Next) | CloseHold(s: Sid, next: Next) | MarkedHold(s: Sid, next: Next)
    | NotifyWant(s: Sid, next: Next) | NotifyHold(s: Sid, next: Next)
    // the read loop: dispatchFrames with push and shutdown, and a lost connection
    | Reading | PassWant | PassHold(detached: Option<Sid>)
    | PushWant(s: Sid, m: nat, detached: Option<Sid>) | PushHold(s: Sid, m: nat, detached: Option<Sid>)
    | LostWant | LostHold
    // the client's close()
    | EndWant | EndHold

  /** One stream. `chClosed` is the Go channel itself; sending to it or closing it
      again then panics. `published` says that it was registered once: nobody but
      its subscriber has it before. `closer`, `duty` and `subscriber` record who
      marked it closed, who last had to close it, and who created it. */
  datatype Str = Str(lock: Option<Tid>, stream: Stream<nat>, chClosed: bool, notified: nat,
                     offered: seq<nat>, received: seq<nat>, published: bool,
                     closer: Option<Tid>, duty: Tid, subscriber: Tid)

  datatype Client = Client(cmu: Option<Tid>, disposed: bool, registered: Option<Sid>,
                           streams: map<Sid, Str>, nextSid: Sid, pcs: map<Tid, Pc>)

  datatype Choice = Go | Refuse | Granted(ok: bool) | Again | Frames | Lose | Quit | Push(m: nat) | Shutdown | EndPass

  datatype Action =
    | Subscribe(t: Tid)
    | UserClose(t: Tid, s: Sid)
    | ClientClose(t: Tid)
    | Proceed(t: Tid, choice: Choice)
    | Take(s: Sid)

  predicate WantsC(pc: Pc) {
    pc.CheckWant? || pc.SwapWant? || pc.AskWant? || pc.NotifyWant? || pc.PassWant? || pc.LostWant? || pc.EndWant?
  }

  predicate HoldsC(pc: Pc) {
    pc.CheckHold? || pc.SwapHold? || pc.AskHold? || pc.NotifyHold? || pc.PassHold? || pc.PushWant? || pc.PushHold?
    || pc.LostHold? || pc.EndHold?
  }

  function WantsS(pc: Pc): Option<Sid> {
    if pc.CloseWant? || pc.PushWant? then Some(pc.s) else None
  }

  function HoldsS(pc: Pc): Option<Sid> {
    if pc.CloseHold? || pc.MarkedHold? || pc.PushHold? then Some(pc.s) else None
  }

  predicate Has(c: Client, s: Option<Sid>) { s.Some? ==> s.value in c.streams }

  predicate HasName(pc: Pc) {
    pc.SwapWant? || pc.SwapHold? || pc.AskWant? || pc.AskHold? || pc.Asking? || pc.CloseWant? || pc.CloseHold?
    || pc.MarkedHold? || pc.NotifyWant? || pc.NotifyHold? || pc.PushWant? || pc.PushHold?
  }

  /** The choices a thread has at a point where it does not wait for a lock. */
  predicate Offers(pc: Pc, choice: Choice) {
    match pc
    case Finished => false
    case CheckHold => choice == Go || choice == Refuse
    case Asking(_) => choice.Granted? || choice == Again
    case Reading => choice == Frames || choice == Lose || choice == Quit
    case PassHold(_) => choice.Push? || choice == Shutdown || choice == EndPass
    case _ => choice == Go
  }

  /** A thread can go on unless the lock it wants is taken. That the streams it
      names exist is not a guard of the code; every reachable state has them. */
  predicate CanProceed(c: Client, t: Tid, choice: Choice) {
    && t in c.pcs && Offers(c.pcs[t], choice)
    && (HasName(c.pcs[t]) ==> c.pcs[t].s in c.streams) && Has(c, c.registered)
    && (WantsC(c.pcs[t]) ==> c.cmu == None)
    && (WantsS(c.pcs[t]).Some? ==> c.streams[WantsS(c.pcs[t]).value].lock == None)
  }

  predicate Free(c: Client, t: Tid) {
    t in c.pcs ==> c.pcs[t] == Finished
  }

  predicate Enabled(c: Client, a: Action) {
    match a
    case Subscribe(t) => Free(c, t)
    case UserClose(t, s) => Free(c, t) && s in c.streams && c.streams[s].published
    case ClientClose(t) => Free(c, t)
    case Proceed(t, choice) => CanProceed(c, t, choice)
    case Take(s) => s in c.streams && Front(c.streams[s].stream).Item?
  }

  function At(c: Client, t: Tid, pc: Pc): Client { c.(pcs := c.pcs[t := pc]) }

  function Resume(next: Next): Pc {
    match next case Stop => Finished case ThenAsk(s) => AskWant(s) case ThenRead => Reading
  }

  /** Unregister whatever is registered; `t` now has to close it. */
  function Detach(c: Client, t: Tid): Client
    requires c.registered.Some? ==> c.registered.value in c.streams
  {
    if c.registered.None? then c
    else
      var s := c.registered.value;
      c.(registered := None, streams := c.streams[s := c.streams[s].(duty := t)])
  }

  function Created(c: Client, t: Tid): Client {
    c.(nextSid := c.nextSid + 1,
       streams := c.streams[c.nextSid := Str(None, New(256), false, 0, [], [], false, None, t, t)])
  }

  function SetStr(c: Client, s: Sid, x: Str): Client { c.(streams := c.streams[s := x]) }

  function LockC(c: Client, t: Tid, pc: Pc): Client { At(c, t, pc).(cmu := Some(t)) }

  function UnlockC(c: Client, t: Tid, pc: Pc): Client { At(c, t, pc).(cmu := None) }

  /** The same thread once its lock is granted. */
  function Granting(pc: Pc): Pc {
    match pc
    case CheckWant => CheckHold
    case SwapWant(s) => SwapHold(s)
    case AskWant(s) => AskHold(s)
    case NotifyWant(s, next) => NotifyHold(s, next)
    case PassWant => PassHold(None)
    case LostWant => LostHold
    case EndWant => EndHold
    case CloseWant(s, next) => CloseHold(s, next)
    case PushWant(s, m, d) => PushHold(s, m, d)
    case _ => pc
  }

  function LockStream(c: Client, t: Tid, s: Sid, pc: Pc): Client
    requires s in c.streams
  {
    At(SetStr(c, s, c.streams[s].(lock := Some(t))), t, pc)
  }

  /** The first critical section, and what follows it unlocked: a closed client
      refuses, and so may the topics' partition; otherwise the stream is made. */
  function Checked(c: Client, t: Tid, choice: Choice): Client {
    if c.disposed || choice == Refuse then UnlockC(c, t, Finished)
    else UnlockC(Created(c, t), t, SwapWant(c.nextSid))
  }

  /** The requests are over, the first one refused or the last one granted; or a
      second one, for the patterns, is still to be sent. */
  function Asked(s: Sid, choice: Choice): Pc
    requires choice.Granted? || choice == Again
  {
    if choice == Again then AskWant(s) else if choice.ok then Finished else CloseWant(s, Stop)
  }

  function Swapped(c: Client, t: Tid, s: Sid): Client
    requires Has(c, c.registered) && s in c.streams
  {
    var d := Detach(c, t);
    UnlockC(SetStr(d, s, d.streams[s].(published := true)).(registered := Some(s)), t,
            if c.registered.Some? then CloseWant(c.registered.value, ThenAsk(s)) else AskWant(s))
  }

  /** Close marks the stream and then closes its channel, both under s.mu. */
  function Marked(c: Client, t: Tid, s: Sid, next: Next): Client
    requires s in c.streams
  {
    var x := c.streams[s];
    if x.stream.closed then At(SetStr(c, s, x.(lock := None)), t, Resume(next))
    else At(SetStr(c, s, x.(stream := Closed(x.stream), closer := Some(t))), t, MarkedHold(s, next))
  }

  function ChannelClosed(c: Client, t: Tid, s: Sid, next: Next): Client
    requires s in c.streams
  {
    At(SetStr(c, s, c.streams[s].(chClosed := true, lock := None)), t, NotifyWant(s, next))
  }

  /** The onClose callback: forget the stream only while it is the registered one. */
  function Notified(c: Client, t: Tid, s: Sid, next: Next): Client
    requires s in c.streams
  {
    var c' := SetStr(c, s, c.streams[s].(notified := c.streams[s].notified + 1));
    UnlockC(c'.(registered := if c.registered == Some(s) then None else c.registered), t, Resume(next))
  }

  /** One frame of a dispatch pass, or the end of the pass. */
  function Dispatched(c: Client, t: Tid, d: Option<Sid>, choice: Choice): Client
    requires Has(c, c.registered)
  {
    if choice.Push? then
      if c.registered.None? then c else At(c, t, PushWant(c.registered.value, choice.m, d))
    else if choice == Shutdown then At(Detach(c, t), t, PassHold(if c.registered.Some? then c.registered else d))
    else UnlockC(c, t, if d.Some? then CloseWant(d.value, ThenRead) else Reading)
  }

  function PushedTo(c: Client, t: Tid, s: Sid, m: nat, d: Option<Sid>): Client
    requires s in c.streams
  {
    var x := c.streams[s];
    At(SetStr(c, s, x.(lock := None, stream := Pushed(x.stream, m), offered := x.offered + [m])), t, PassHold(d))
  }

  /** A lost connection, or the client's own close(), detaches the stream. */
  function DetachedBy(c: Client, t: Tid): Client
    requires Has(c, c.registered)
  {
    UnlockC(Detach(c, t), t, if c.registered.Some? then CloseWant(c.registered.value, Stop) else Finished)
  }

  function Ended(c: Client, t: Tid): Client
    requires Has(c, c.registered)
  {
    if c.disposed then UnlockC(c, t, Finished) else DetachedBy(c, t).(disposed := true)
  }

  function Advanced(c: Client, t: Tid, choice: Choice): Client
    requires CanProceed(c, t, choice)
  {
    var pc := c.pcs[t];
    if WantsC(pc) then LockC(c, t, Granting(pc))
    else if WantsS(pc).Some? then LockStream(c, t, WantsS(pc).value, Granting(pc))
    else
      match pc
      case CheckHold => Checked(c, t, choice)
      case SwapHold(s) => Swapped(c, t, s)
      case AskHold(s) => UnlockC(c, t, if c.disposed then CloseWant(s, Stop) else Asking(s))
      case Asking(s) => At(c, t, Asked(s, choice))
      case CloseHold(s, next) => Marked(c, t, s, next)
      case MarkedHold(s, next) => ChannelClosed(c, t, s, next)
      case NotifyHold(s, next) => Notified(c, t, s, next)
      case Reading => At(c, t, if choice == Frames then PassWant else if choice == Lose then LostWant else Finished)
      case PassHold(d) => Dispatched(c, t, d, choice)
      case PushHold(s, m, d) => PushedTo(c, t, s, m, d)
      case LostHold => DetachedBy(c, t)
      case _ => Ended(c, t)
  }

  function Step(c: Client, a: Action): Client
    requires Enabled(c, a)
  {
    match a
    case Subscribe(t) => At(c, t, CheckWant)
    case UserClose(t, s) => At(c, t, CloseWant(s, Stop))
    case ClientClose(t) => At(c, t, EndWant)
    case Proceed(t, choice) => Advanced(c, t, choice)
    case Take(s) =>
      var x := c.streams[s];
      SetStr(c, s, x.(stream := Taken(x.stream), received := x.received + [Front(x.stream).message]))
  }

  ghost predicate Run(c: Client, run: seq<Action>)
    decreases |run|
  {
    run == [] || (Enabled(c, run[0]) && Run(Step(c, run[0]), run[1..]))
  }

  ghost function After(c: Client, run: seq<Action>): Client
    requires Run(c, run)
    decreases |run|
  {
    if run == [] then c else After(Step(c, run[0]), run[1..])
  }

  /** A connected client with its read loop running and no stream yet. */
  const START := Client(None, false, None, map[], 0, map[0 := Reading])

  // ---------------------------------------------------------------------
  // The ownership discipline
  // ---------------------------------------------------------------------

  /** Between marking the stream closed and the end of its callback. */
  predicate IsClosing(pc: Pc, s: Sid) {
    (pc.MarkedHold? || pc.NotifyWant? || pc.NotifyHold?) && pc.s == s
  }

  function Detached(pc: Pc): Option<Sid> {
    if pc.PassHold? || pc.PushWant? || pc.PushHold? then pc.detached else None
  }

  /** The thread will close this stream, or register it. */
  predicate WillClose(pc: Pc, s: Sid) {
    || Detached(pc) == Some(s)
    || ((pc.SwapWant? || pc.SwapHold? || pc.CloseWant? || pc.CloseHold?) && pc.s == s)
  }

  function NextOf(pc: Pc): Next {
    if pc.CloseWant? || pc.CloseHold? || pc.MarkedHold? || pc.NotifyWant? || pc.NotifyHold? then pc.next else Stop
  }

  /** The thread has yet to learn whether its request for this stream can go out. */
  predicate StillAsking(pc: Pc, s: Sid) {
    || NextOf(pc) == ThenAsk(s)
    || ((pc.AskWant? || pc.AskHold? || pc.CloseWant? || pc.CloseHold?) && pc.s == s)
  }

  function NamedBy(pc: Pc): Sid { if HasName(pc) then pc.s else 0 }

  predicate NamesOnlyStreams(c: Client, pc: Pc) {
    && Has(c, Detached(pc))
    && (NextOf(pc).ThenAsk? ==> NextOf(pc).s in c.streams)
    && (HasName(pc) ==> pc.s in c.streams)
  }

  predicate ThreadOk(c: Client, t: Tid, pc: Pc) {
    && NamesOnlyStreams(c, pc)
    && (HoldsC(pc) <==> c.cmu == Some(t))
    && (HoldsS(pc).Some? ==> c.streams[HoldsS(pc).value].lock == Some(t))
    && (IsClosing(pc, NamedBy(pc)) ==>
         var x := c.streams[pc.s]; x.closer == Some(t) && x.notified == 0 && (pc.MarkedHold? ==> !x.chClosed))
    && (Detached(pc).Some? ==> c.registered == None)
    && (HasName(pc) ==> if pc.SwapWant? || pc.SwapHold?
                        then !c.streams[pc.s].published && c.streams[pc.s].subscriber == t
                        else c.streams[pc.s].published)
    && (Detached(pc).Some? ==> c.streams[Detached(pc).value].published)
    && (NextOf(pc).ThenAsk? ==> c.streams[NextOf(pc).s].published)
  }

  function PcOf(c: Client, t: Tid): Pc { if t in c.pcs then c.pcs[t] else Finished }

  ghost predicate StreamOk(c: Client, s: Sid, x: Str) {
    && s < c.nextSid
    && (x.lock.Some? ==> HoldsS(PcOf(c, x.lock.value)) == Some(s))
    && (x.chClosed ==> x.stream.closed)
    && (x.stream.closed <==> x.closer.Some?)
    && (x.stream.closed && !x.chClosed ==> PcOf(c, x.closer.value).MarkedHold? && PcOf(c, x.closer.value).s == s)
    && (x.stream.closed || c.registered == Some(s) ==> x.published)
    && x.notified <= 1 && (x.notified == 1 ==> x.stream.closed)
    && (x.stream.closed && x.notified == 0 ==> IsClosing(PcOf(c, x.closer.value), s))
    && (!x.stream.closed && c.registered != Some(s) ==> WillClose(PcOf(c, x.duty), s))
    && (c.registered == Some(s) && x.stream.closed ==> x.notified == 0)
    && (c.disposed && c.registered == Some(s) && !x.stream.closed ==> StillAsking(PcOf(c, x.subscriber), s))
  }

  ghost predicate Inv(c: Client) {
    && (c.cmu.Some? ==> HoldsC(PcOf(c, c.cmu.value)))
    && Has(c, c.registered)
    && (forall t :: t in c.pcs ==> ThreadOk(c, t, c.pcs[t]))
    && (forall s :: s in c.streams ==> StreamOk(c, s, c.streams[s]))
  }

  // ---------------------------------------------------------------------
  // Every step keeps it
  // ---------------------------------------------------------------------

  predicate MineOrFree(o: Option<Tid>, t: Tid) { o == None || o == Some(t) }

  /** What a step of thread `t` may do to a stream as far as other threads go. */
  predicate StreamFrame(x: Str, y: Str, t: Tid) {
    && y.subscriber == x.subscriber
    && (y.published == x.published || (y.published && x.subscriber == t))
    && (y.lock == x.lock || (MineOrFree(x.lock, t) && MineOrFree(y.lock, t)))
    && (!MineOrFree(x.closer, t) ==> y.closer == x.closer && y.notified == x.notified && y.chClosed == x.chClosed)
  }

  ghost predicate StepFrame(c: Client, e: Client, t: Tid) {
    && t in c.pcs && t in e.pcs && e.pcs == c.pcs[t := e.pcs[t]]
    && (e.cmu == c.cmu || (MineOrFree(c.cmu, t) && MineOrFree(e.cmu, t)))
    && (e.registered != c.registered ==> c.cmu == Some(t))
    && (e.registered != c.registered && e.registered.Some? ==>
         e.registered.value in c.streams && c.streams[e.registered.value].subscriber == t)
    && (forall s :: s in c.streams ==> s in e.streams && StreamFrame(c.streams[s], e.streams[s], t))
  }

  lemma OtherThreadsOk(c: Client, e: Client, t: Tid, u: Tid)
    requires Inv(c) && StepFrame(c, e, t) && u in c.pcs && u != t
    ensures ThreadOk(e, u, e.pcs[u])
  {
    assert ThreadOk(c, u, c.pcs[u]);
    if HasName(c.pcs[u]) {
      var s := c.pcs[u].s;
      assert StreamFrame(c.streams[s], e.streams[s], t);
    }
  }

  /** Whatever the thread still owed stream `s` before its step, it still owes. */
  predicate Carries(before: Pc, after: Pc, s: Sid) {
    && (HoldsS(before) == Some(s) ==> HoldsS(after) == Some(s))
    && (before.MarkedHold? && before.s == s ==> after.MarkedHold? && after.s == s)
    && (IsClosing(before, s) ==> IsClosing(after, s))
    && (WillClose(before, s) ==> WillClose(after, s))
    && (StillAsking(before, s) ==> StillAsking(after, s))
  }

  predicate Untouched(c: Client, e: Client, t: Tid, s: Sid)
    requires t in c.pcs && t in e.pcs
  {
    && s in c.streams && s in e.streams && e.streams[s] == c.streams[s]
    && (e.registered == Some(s) <==> c.registered == Some(s))
    && Carries(c.pcs[t], e.pcs[t], s)
  }

  lemma UntouchedStreamOk(c: Client, e: Client, t: Tid, s: Sid)
    requires Inv(c) && StepFrame(c, e, t) && Untouched(c, e, t, s) && c.nextSid <= e.nextSid
    requires e.disposed && e.registered == Some(s) ==> c.disposed
    ensures StreamOk(e, s, e.streams[s])
  {
    assert StreamOk(c, s, c.streams[s]);
  }

  /** What a step of thread `t` that touches only these streams must show. */
  ghost predicate GoodStep(c: Client, e: Client, t: Tid, touched: set<Sid>) {
    && StepFrame(c, e, t) && c.nextSid <= e.nextSid
    && (e.disposed ==> c.disposed || e.registered == None)
    && ThreadOk(e, t, e.pcs[t]) && Has(e, e.registered)
    && (e.cmu.Some? ==> HoldsC(PcOf(e, e.cmu.value)))
    && (forall s :: s in e.streams && s !in touched ==> Untouched(c, e, t, s))
    && (forall s :: s in e.streams && s in touched ==> StreamOk(e, s, e.streams[s]))
  }

  lemma StepKeeps(c: Client, e: Client, t: Tid, touched: set<Sid>)
    requires Inv(c) && GoodStep(c, e, t, touched)
    ensures Inv(e)
  {
    forall u | u in e.pcs && u != t
      ensures ThreadOk(e, u, e.pcs[u])
    {
      OtherThreadsOk(c, e, t, u);
    }
    forall s | s in e.streams && s !in touched
      ensures StreamOk(e, s, e.streams[s])
    {
      UntouchedStreamOk(c, e, t, s);
    }
  }

  ghost predicate CarriesElsewhere(before: Pc, after: Pc, s: Sid) {
    && (HoldsS(before).Some? && HoldsS(before).value != s ==> HoldsS(after) == HoldsS(before))
    && (IsClosing(before, NamedBy(before)) && before.s != s ==> after == before)
    && (forall r :: r != s && WillClose(before, r) ==> WillClose(after, r))
    && (forall r :: r != s && StillAsking(before, r) ==> StillAsking(after, r))
  }

  /** The same for a step that touches one stream, or changes whether it is the
      registered one. */
  ghost predicate GoodStreamStep(c: Client, e: Client, t: Tid, s: Sid) {
    && t in c.pcs && t in e.pcs && e.pcs == c.pcs[t := e.pcs[t]]
    && s in c.streams && s in e.streams && e.streams == c.streams[s := e.streams[s]]
    && (e.cmu == c.cmu || (MineOrFree(c.cmu, t) && MineOrFree(e.cmu, t)))
    && (e.registered == c.registered || (c.cmu == Some(t) && c.registered == Some(s) && e.registered == None))
    && e.nextSid == c.nextSid
    && (e.disposed ==> c.disposed || e.registered == None)
    && (e.cmu.Some? ==> HoldsC(PcOf(e, e.cmu.value)))
    && ThreadOk(e, t, e.pcs[t])
    && CarriesElsewhere(c.pcs[t], e.pcs[t], s)
    && StreamFrame(c.streams[s], e.streams[s], t) && StreamOk(e, s, e.streams[s])
  }

  lemma StreamStepKeeps(c: Client, e: Client, t: Tid, s: Sid)
    requires Inv(c) && GoodStreamStep(c, e, t, s)
    ensures Inv(e)
  {
    forall r | r in e.streams && r != s
      ensures Untouched(c, e, t, r)
    {
    }
    StepKeeps(c, e, t, {s});
  }

  ghost predicate CarriesAll(before: Pc, after: Pc) {
    && HoldsS(after) == HoldsS(before)
    && !IsClosing(before, NamedBy(before))
    && (forall r :: WillClose(before, r) ==> WillClose(after, r))
    && (forall r :: StillAsking(before, r) ==> StillAsking(after, r))
  }

  /** The same for a step that touches no stream. */
  ghost predicate GoodPlainStep(c: Client, e: Client, t: Tid) {
    && t in c.pcs && t in e.pcs && e.pcs == c.pcs[t := e.pcs[t]]
    && e.streams == c.streams && e.registered == c.registered && e.nextSid == c.nextSid
    && (e.cmu == c.cmu || (MineOrFree(c.cmu, t) && MineOrFree(e.cmu, t)))
    && (e.disposed ==> c.disposed || e.registered == None)
    && (e.cmu.Some? ==> HoldsC(PcOf(e, e.cmu.value)))
    && ThreadOk(e, t, e.pcs[t])
    && (CarriesAll(c.pcs[t], e.pcs[t]) || (c.pcs[t].NotifyWant? && e.pcs[t] == Granting(c.pcs[t])))
  }

  lemma PlainStepKeeps(c: Client, e: Client, t: Tid)
    requires Inv(c) && GoodPlainStep(c, e, t)
    ensures Inv(e)
  {
    forall r | r in e.streams
      ensures Untouched(c, e, t, r)
    {
    }
    StepKeeps(c, e, t, {});
  }

  /** What a thread knows of itself, of c.mu and of the registered stream. */
  ghost predicate Knows(c: Client, t: Tid) {
    && t in c.pcs && ThreadOk(c, t, c.pcs[t])
    && (c.cmu.Some? ==> HoldsC(PcOf(c, c.cmu.value)))
    && (c.registered.Some? ==>
         c.registered.value in c.streams && StreamOk(c, c.registered.value, c.streams[c.registered.value]))
  }

  ghost predicate KnowsStream(c: Client, t: Tid, s: Sid) {
    Knows(c, t) && s in c.streams && StreamOk(c, s, c.streams[s])
  }

  lemma LockingIsGood(c: Client, t: Tid)
    requires Knows(c, t) && WantsC(c.pcs[t]) && c.cmu == None
    ensures GoodPlainStep(c, LockC(c, t, Granting(c.pcs[t])), t)
  {
  }

  lemma LockingStreamIsGood(c: Client, t: Tid, s: Sid)
    requires KnowsStream(c, t, s) && WantsS(c.pcs[t]) == Some(s) && c.streams[s].lock == None
    ensures GoodStreamStep(c, LockStream(c, t, s, Granting(c.pcs[t])), t, s)
  {
  }

  lemma RefusingIsGood(c: Client, t: Tid)
    requires Knows(c, t) && c.pcs[t].CheckHold?
    ensures GoodStep(c, UnlockC(c, t, Finished), t, {})
  {
  }

  lemma CreatingIsGood(c: Client, t: Tid)
    requires Knows(c, t) && c.pcs[t].CheckHold? && c.nextSid !in c.streams && !c.disposed
    ensures GoodStep(c, UnlockC(Created(c, t), t, SwapWant(c.nextSid)), t, {c.nextSid})
  {
  }

  lemma CheckingIsGood(c: Client, t: Tid, choice: Choice)
    requires Knows(c, t) && c.pcs[t].CheckHold? && c.nextSid !in c.streams
    ensures GoodStep(c, Checked(c, t, choice), t, if c.disposed || choice == Refuse then {} else {c.nextSid})
  {
    hide GoodStep;
    if c.disposed || choice == Refuse {
      RefusingIsGood(c, t);
    } else {
      CreatingIsGood(c, t);
    }
  }

  lemma FirstSwapIsGood(c: Client, t: Tid, s: Sid)
    requires KnowsStream(c, t, s) && c.pcs[t] == SwapHold(s) && c.registered.None?
    ensures GoodStep(c, Swapped(c, t, s), t, {s})
  {
  }

  lemma SwapFrames(c: Client, t: Tid, s: Sid)
    requires KnowsStream(c, t, s) && c.pcs[t] == SwapHold(s) && c.registered.Some?
    ensures StepFrame(c, Swapped(c, t, s), t)
  {
  }

  lemma SwapKeepsOthers(c: Client, t: Tid, s: Sid)
    requires KnowsStream(c, t, s) && c.pcs[t] == SwapHold(s) && c.registered.Some?
    ensures var e := Swapped(c, t, s);
      && t in c.pcs && t in e.pcs
      && forall r :: r in e.streams && r !in {s, c.registered.value} ==> Untouched(c, e, t, r)
  {
  }

  lemma SwapKeepsTouched(c: Client, t: Tid, s: Sid)
    requires KnowsStream(c, t, s) && c.pcs[t] == SwapHold(s) && c.registered.Some?
    ensures var e := Swapped(c, t, s);
      && t in e.pcs && ThreadOk(e, t, e.pcs[t])
      && forall r :: r in e.streams && r in {s, c.registered.value} ==> StreamOk(e, r, e.streams[r])
  {
  }

  lemma SwappingIsGood(c: Client, t: Tid, s: Sid)
    requires KnowsStream(c, t, s) && c.pcs[t] == SwapHold(s)
    ensures GoodStep(c, Swapped(c, t, s), t, if c.registered.Some? then {s, c.registered.value} else {s})
  {
    if c.registered.None? {
      FirstSwapIsGood(c, t, s);
    } else {
      SwapFrames(c, t, s);
      SwapKeepsOthers(c, t, s);
      SwapKeepsTouched(c, t, s);
      hide StepFrame, Untouched, StreamOk, ThreadOk;
    }
  }

  lemma AskingIsGood(c: Client, t: Tid, s: Sid)
    requires KnowsStream(c, t, s) && c.pcs[t] == AskHold(s)
    ensures GoodStreamStep(c, UnlockC(c, t, if c.disposed then CloseWant(s, Stop) else Asking(s)), t, s)
  {
  }

  lemma MovingIsGood(c: Client, t: Tid, pc: Pc)
    requires Knows(c, t)
    requires || (c.pcs[t].Asking? && pc in {Finished, CloseWant(c.pcs[t].s, Stop), AskWant(c.pcs[t].s)})
             || (c.pcs[t].Reading? && (pc == Finished || pc == PassWant || pc == LostWant))
    ensures GoodPlainStep(c, At(c, t, pc), t)
  {
  }

  lemma MarkingIsGood(c: Client, t: Tid, s: Sid, next: Next)
    requires KnowsStream(c, t, s) && c.pcs[t] == CloseHold(s, next) && !c.streams[s].stream.closed
    ensures GoodStreamStep(c, Marked(c, t, s, next), t, s)
  {
  }

  lemma AlreadyClosedIsGood(c: Client, t: Tid, s: Sid, next: Next)
    requires KnowsStream(c, t, s) && c.pcs[t] == CloseHold(s, next) && c.streams[s].stream.closed
    ensures GoodStreamStep(c, Marked(c, t, s, next), t, s)
  {
  }

  lemma ChannelClosingIsGood(c: Client, t: Tid, s: Sid, next: Next)
    requires KnowsStream(c, t, s) && c.pcs[t] == MarkedHold(s, next)
    ensures GoodStreamStep(c, ChannelClosed(c, t, s, next), t, s)
  {
  }

  lemma NotifyingIsGood(c: Client, t: Tid, s: Sid, next: Next)
    requires KnowsStream(c, t, s) && c.pcs[t] == NotifyHold(s, next)
    ensures GoodStreamStep(c, Notified(c, t, s, next), t, s)
  {
  }

  lemma DispatchingIsGood(c: Client, t: Tid, d: Option<Sid>, choice: Choice)
    requires Knows(c, t) && c.pcs[t] == PassHold(d) && (choice == Shutdown ==> c.registered == None)
    ensures GoodPlainStep(c, Dispatched(c, t, d, choice), t)
  {
  }

  lemma ShutdownIsGood(c: Client, t: Tid, d: Option<Sid>, s: Sid)
    requires KnowsStream(c, t, s) && c.pcs[t] == PassHold(d) && c.registered == Some(s)
    ensures GoodStreamStep(c, Dispatched(c, t, d, Shutdown), t, s)
  {
  }

  lemma PushingIsGood(c: Client, t: Tid, s: Sid, m: nat, d: Option<Sid>)
    requires KnowsStream(c, t, s) && c.pcs[t] == PushHold(s, m, d)
    ensures GoodStreamStep(c, PushedTo(c, t, s, m, d), t, s)
  {
  }

  lemma DetachingIsGood(c: Client, t: Tid, s: Sid, disposed: bool)
    requires KnowsStream(c, t, s) && c.registered == Some(s)
    requires (c.pcs[t].LostHold? || c.pcs[t].EndHold?) && (c.disposed ==> disposed)
    ensures GoodStreamStep(c, DetachedBy(c, t).(disposed := disposed), t, s)
  {
  }

  lemma DetachingNothingIsGood(c: Client, t: Tid, disposed: bool)
    requires Knows(c, t) && c.registered == None
    requires (c.pcs[t].LostHold? || c.pcs[t].EndHold?) && (c.disposed ==> disposed)
    ensures GoodPlainStep(c, DetachedBy(c, t).(disposed := disposed), t)
  {
  }

  lemma EndingTwiceIsGood(c: Client, t: Tid)
    requires Knows(c, t) && c.pcs[t].EndHold? && c.disposed
    ensures GoodPlainStep(c, UnlockC(c, t, Finished), t)
  {
  }

  // Each part of the code, from the invariant to the invariant.

  lemma ThreadKnows(c: Client, t: Tid)
    requires Inv(c) && t in c.pcs
    ensures Knows(c, t)
    ensures HasName(c.pcs[t]) ==> KnowsStream(c, t, c.pcs[t].s)
    ensures c.registered.Some? ==> KnowsStream(c, t, c.registered.value)
    ensures c.nextSid !in c.streams
  {
    assert ThreadOk(c, t, c.pcs[t]);
    forall s | s in c.streams
      ensures s < c.nextSid
    {
      assert StreamOk(c, s, c.streams[s]);
    }
  }

  lemma LocksKeepInv(c: Client, t: Tid)
    requires Inv(c) && CanProceed(c, t, Go) && (WantsC(c.pcs[t]) || WantsS(c.pcs[t]).Some?)
    ensures Inv(Advanced(c, t, Go))
  {
    var pc := c.pcs[t];
    ThreadKnows(c, t);
    if WantsC(pc) {
      LockingIsGood(c, t);
      PlainStepKeeps(c, LockC(c, t, Granting(pc)), t);
    } else {
      var s := WantsS(pc).value;
      LockingStreamIsGood(c, t, s);
      StreamStepKeeps(c, LockStream(c, t, s, Granting(pc)), t, s);
    }
  }

  lemma CreatingKeepsInv(c: Client, t: Tid, choice: Choice)
    requires Inv(c) && t in c.pcs && c.pcs[t].CheckHold?
    ensures Inv(Checked(c, t, choice))
  {
    ThreadKnows(c, t);
    CheckingIsGood(c, t, choice);
    StepKeeps(c, Checked(c, t, choice), t, if c.disposed || choice == Refuse then {} else {c.nextSid});
  }

  lemma SwappingKeepsInv(c: Client, t: Tid, s: Sid)
    requires Inv(c) && t in c.pcs && c.pcs[t] == SwapHold(s)
    ensures s in c.streams && Has(c, c.registered) && Inv(Swapped(c, t, s))
  {
    ThreadKnows(c, t);
    SwappingIsGood(c, t, s);
    StepKeeps(c, Swapped(c, t, s), t, if c.registered.Some? then {s, c.registered.value} else {s});
  }

  lemma AskingKeepsInv(c: Client, t: Tid, choice: Choice)
    requires Inv(c) && CanProceed(c, t, choice)
    requires c.pcs[t].AskHold? || c.pcs[t].Asking? || c.pcs[t].Reading?
    ensures Inv(Advanced(c, t, choice))
  {
    var e, pc := Advanced(c, t, choice), c.pcs[t];
    ThreadKnows(c, t);
    if pc.AskHold? {
      AskingIsGood(c, t, pc.s);
      StreamStepKeeps(c, e, t, pc.s);
    } else {
      MovingIsGood(c, t, e.pcs[t]);
      PlainStepKeeps(c, e, t);
    }
  }

  lemma CloseKeepsInv(c: Client, t: Tid)
    requires Inv(c) && CanProceed(c, t, Go)
    requires var pc := c.pcs[t]; pc.CloseHold? || pc.MarkedHold? || pc.NotifyHold?
    ensures Inv(Advanced(c, t, Go))
  {
    ThreadKnows(c, t);
    var e := Advanced(c, t, Go);
    match c.pcs[t] {
      case CloseHold(s, next) =>
        if c.streams[s].stream.closed {
          AlreadyClosedIsGood(c, t, s, next);
        } else {
          MarkingIsGood(c, t, s, next);
        }
        StreamStepKeeps(c, e, t, s);
      case MarkedHold(s, next) =>
        ChannelClosingIsGood(c, t, s, next);
        StreamStepKeeps(c, e, t, s);
      case NotifyHold(s, next) =>
        NotifyingIsGood(c, t, s, next);
        StreamStepKeeps(c, e, t, s);
    }
  }

  lemma ReadLoopKeepsInv(c: Client, t: Tid, choice: Choice)
    requires Inv(c) && CanProceed(c, t, choice) && (c.pcs[t].PassHold? || c.pcs[t].PushHold?)
    ensures Inv(Advanced(c, t, choice))
  {
    ThreadKnows(c, t);
    var e := Advanced(c, t, choice);
    match c.pcs[t] {
      case PushHold(s, m, d) =>
        PushingIsGood(c, t, s, m, d);
        StreamStepKeeps(c, e, t, s);
      case PassHold(d) =>
        if choice == Shutdown && c.registered.Some? {
          ShutdownIsGood(c, t, d, c.registered.value);
          StreamStepKeeps(c, e, t, c.registered.value);
        } else {
          DispatchingIsGood(c, t, d, choice);
          PlainStepKeeps(c, e, t);
        }
    }
  }

  lemma DetachKeepsInv(c: Client, t: Tid)
    requires Inv(c) && CanProceed(c, t, Go) && (c.pcs[t].LostHold? || c.pcs[t].EndHold?)
    ensures Inv(Advanced(c, t, Go))
  {
    ThreadKnows(c, t);
    var e := Advanced(c, t, Go);
    if c.pcs[t].EndHold? && c.disposed {
      EndingTwiceIsGood(c, t);
      PlainStepKeeps(c, e, t);
    } else if c.registered.Some? {
      DetachingIsGood(c, t, c.registered.value, c.disposed || c.pcs[t].EndHold?);
      StreamStepKeeps(c, e, t, c.registered.value);
    } else {
      DetachingNothingIsGood(c, t, c.disposed || c.pcs[t].EndHold?);
      PlainStepKeeps(c, e, t);
    }
  }

  lemma StartedStreamOk(c: Client, t: Tid, pc: Pc, s: Sid)
    requires s in c.streams && StreamOk(c, s, c.streams[s]) && Free(c, t)
    ensures StreamOk(At(c, t, pc), s, c.streams[s])
  {
    assert PcOf(c, t) == Finished;
    assert forall u :: u != t ==> PcOf(At(c, t, pc), u) == PcOf(c, u);
  }

  lemma StartedThreadOk(c: Client, t: Tid, pc: Pc, u: Tid)
    requires u in c.pcs && u != t && ThreadOk(c, u, c.pcs[u])
    ensures ThreadOk(At(c, t, pc), u, c.pcs[u])
  {
  }

  predicate CanStart(c: Client, pc: Pc) {
    || pc == CheckWant || pc == EndWant
    || (pc.CloseWant? && pc.next == Stop && pc.s in c.streams && c.streams[pc.s].published)
  }

  lemma StarterOk(c: Client, t: Tid, pc: Pc)
    requires c.cmu != Some(t) && CanStart(c, pc)
    ensures ThreadOk(At(c, t, pc), t, pc)
  {
  }

  lemma StartingKeepsInv(c: Client, t: Tid, pc: Pc)
    requires Inv(c) && Free(c, t) && CanStart(c, pc)
    ensures Inv(At(c, t, pc))
  {
    var e := At(c, t, pc);
    assert PcOf(c, t) == Finished && c.cmu != Some(t);
    StarterOk(c, t, pc);
    hide StreamOk, ThreadOk, CanStart;
    forall u | u in e.pcs
      ensures ThreadOk(e, u, e.pcs[u])
    {
      if u != t {
        StartedThreadOk(c, t, pc, u);
      }
    }
    forall s | s in e.streams
      ensures StreamOk(e, s, e.streams[s])
    {
      StartedStreamOk(c, t, pc, s);
    }
  }

  /** Receiving changes nothing the two locks guard. */
  lemma TakingKeepsInv(c: Client, s: Sid, y: Str)
    requires Inv(c) && s in c.streams
    requires var x := c.streams[s]; y == x.(stream := Taken(x.stream), received := y.received)
    ensures Inv(SetStr(c, s, y))
  {
    var e := SetStr(c, s, y);
    forall u | u in e.pcs
      ensures ThreadOk(e, u, e.pcs[u])
    {
      assert ThreadOk(c, u, c.pcs[u]);
    }
    forall r | r in e.streams
      ensures StreamOk(e, r, e.streams[r])
    {
      assert StreamOk(c, r, c.streams[r]);
    }
  }

  lemma StepKeepsInv(c: Client, a: Action)
    requires Inv(c) && Enabled(c, a)
    ensures Inv(Step(c, a))
  {
    match a {
      case Subscribe(t) => StartingKeepsInv(c, t, CheckWant);
      case UserClose(t, s) => StartingKeepsInv(c, t, CloseWant(s, Stop));
      case ClientClose(t) => StartingKeepsInv(c, t, EndWant);
      case Take(s) => TakingKeepsInv(c, s, Step(c, a).streams[s]);
      case Proceed(t, choice) =>
        var pc := c.pcs[t];
        if WantsC(pc) || WantsS(pc).Some? {
          LocksKeepInv(c, t);
        } else if pc.CheckHold? {
          CreatingKeepsInv(c, t, choice);
        } else if pc.SwapHold? {
          SwappingKeepsInv(c, t, pc.s);
        } else if pc.AskHold? || pc.Asking? || pc.Reading? {
          AskingKeepsInv(c, t, choice);
        } else if pc.CloseHold? || pc.MarkedHold? || pc.NotifyHold? {
          CloseKeepsInv(c, t);
        } else if pc.PassHold? || pc.PushHold? {
          ReadLoopKeepsInv(c, t, choice);
        } else {
          DetachKeepsInv(c, t);
        }
    }
  }

  lemma {:induction false} RunKeepsInv(c: Client, run: seq<Action>)
    requires Inv(c) && Run(c, run)
    ensures Inv(After(c, run))
    decreases |run|
  {
    hide Inv, Step, Enabled;
    if run != [] {
      StepKeepsInv(c, run[0]);
      RunKeepsInv(Step(c, run[0]), run[1..]);
    }
  }

  // ---------------------------------------------------------------------
  // What holds in every interleaving
  // ---------------------------------------------------------------------

  /** No Go channel is sent to once it is closed or closed twice; a stream's
      onClose runs at most once; and a thread that waits for c.mu holds neither
      c.mu nor any s.mu. */
  lemma StreamsNeverPanic(run: seq<Action>, t: Tid)
    requires Run(START, run) && t in After(START, run).pcs
    ensures var e := After(START, run);
      var pc := e.pcs[t];
      && (pc.PushHold? ==> pc.s in e.streams && (!e.streams[pc.s].stream.closed ==> !e.streams[pc.s].chClosed))
      && (pc.MarkedHold? ==> pc.s in e.streams && !e.streams[pc.s].chClosed)
      && (WantsC(pc) ==> e.cmu != Some(t) && forall s :: s in e.streams ==> e.streams[s].lock != Some(t))
      && (forall s :: s in e.streams ==> e.streams[s].notified <= 1)
  {
    RunKeepsInv(START, run);
    var e := After(START, run);
    assert ThreadOk(e, t, e.pcs[t]);
    forall s | s in e.streams
      ensures e.streams[s].notified <= 1 && (e.streams[s].chClosed ==> e.streams[s].stream.closed)
      ensures WantsC(e.pcs[t]) ==> e.streams[s].lock != Some(t)
    {
      assert StreamOk(e, s, e.streams[s]);
    }
  }

  predicate Idle(pc: Pc) { pc == Finished || pc == Reading }

  /** Whoever holds a stream's lock can go on: nothing waits while holding it. */
  lemma StreamHolderCanProceed(c: Client, s: Sid) returns (u: Tid)
    requires Inv(c) && s in c.streams && c.streams[s].lock.Some?
    ensures u in c.pcs && !Idle(c.pcs[u]) && CanProceed(c, u, Go)
  {
    assert StreamOk(c, s, c.streams[s]);
    u := c.streams[s].lock.value;
    assert ThreadOk(c, u, c.pcs[u]);
  }

  /** Whoever does not wait for c.mu waits at most for a stream's lock. */
  lemma OthersCanProceed(c: Client, t: Tid) returns (u: Tid, choice: Choice)
    requires Inv(c) && t in c.pcs && !Idle(c.pcs[t]) && (WantsC(c.pcs[t]) ==> c.cmu == None)
    ensures u in c.pcs && !Idle(c.pcs[u]) && CanProceed(c, u, choice)
  {
    var pc := c.pcs[t];
    assert ThreadOk(c, t, pc);
    if WantsS(pc).Some? && c.streams[pc.s].lock.Some? {
      u := StreamHolderCanProceed(c, pc.s);
      return u, Go;
    }
    return t, if pc.Asking? then Granted(true) else if pc.PassHold? then EndPass else Go;
  }

  /** No interleaving deadlocks: while any thread is under way, some thread that
      is under way can take its next step. */
  lemma SomeThreadCanProceed(run: seq<Action>, t: Tid) returns (u: Tid, choice: Choice)
    requires Run(START, run) && t in After(START, run).pcs && !Idle(After(START, run).pcs[t])
    ensures var e := After(START, run);
      u in e.pcs && !Idle(e.pcs[u]) && Enabled(e, Proceed(u, choice))
  {
    RunKeepsInv(START, run);
    var e := After(START, run);
    u := t;
    if WantsC(e.pcs[t]) && e.cmu.Some? {
      u := e.cmu.value;
    }
    u, choice := OthersCanProceed(e, u);
  }

  /** When every thread is done, or the read loop waits for data: each stream is
      closed and has told its client exactly once, or is the registered one and
      open; and a closed client has no registered stream. No stream is left open
      that nobody will ever end, and no late close unregisters a successor. */
  lemma NoStreamIsStranded(run: seq<Action>, s: Sid)
    requires Run(START, run) && s in After(START, run).streams
    requires forall t :: t in After(START, run).pcs ==> Idle(After(START, run).pcs[t])
    ensures var e := After(START, run);
      var x := e.streams[s];
      if x.stream.closed then x.chClosed && x.notified == 1 && e.registered != Some(s)
      else e.registered == Some(s) && !e.disposed && x.notified == 0
  {
    RunKeepsInv(START, run);
    IdleStreamIsSettled(After(START, run), s);
  }

  lemma IdleStreamIsSettled(c: Client, s: Sid)
    requires s in c.streams && StreamOk(c, s, c.streams[s])
    requires forall t :: t in c.pcs ==> Idle(c.pcs[t])
    ensures var x := c.streams[s];
      if x.stream.closed then x.chClosed && x.notified == 1 && c.registered != Some(s)
      else c.registered == Some(s) && !c.disposed && x.notified == 0
  {
    assert forall t :: Idle(PcOf(c, t));
  }

  /** While it is registered, an open stream stays registered through any step
      of the callback of another one. */
  lemma CallbackSparesSuccessor(c: Client, t: Tid, s: Sid)
    requires Inv(c) && Enabled(c, Proceed(t, Go)) && c.pcs[t].NotifyHold?
    requires c.registered == Some(s) && !c.streams[s].stream.closed
    ensures Step(c, Proceed(t, Go)).registered == Some(s)
  {
    assert ThreadOk(c, t, c.pcs[t]);
    assert StreamOk(c, c.pcs[t].s, c.streams[c.pcs[t].s]);
  }

  // ---------------------------------------------------------------------
  // What a receiver sees
  // ---------------------------------------------------------------------

  ghost predicate Ordered(x: Str) {
    x.stream.capacity == 256 && Subsequence(x.received + x.stream.buffer, x.offered)
  }

  ghost predicate AllOrdered(c: Client) {
    forall s :: s in c.streams ==> Ordered(c.streams[s])
  }

  lemma PushKeepsOrder(x: Str, m: nat)
    requires Ordered(x)
    ensures Pushed(x.stream, m).capacity == 256
    ensures Subsequence(x.received + Pushed(x.stream, m).buffer, x.offered + [m])
  {
    SubsequenceExtends(x.received + x.stream.buffer, x.offered, m);
    assert x.received + (x.stream.buffer + [m]) == (x.received + x.stream.buffer) + [m];
  }

  predicate SameTraffic(x: Str, y: Str) {
    && y.received == x.received && y.offered == x.offered
    && y.stream.buffer == x.stream.buffer && y.stream.capacity == x.stream.capacity
  }

  ghost predicate Quiet(c: Client, e: Client) {
    && (forall s :: s in c.streams ==> s in e.streams && SameTraffic(c.streams[s], e.streams[s]))
    && (forall s :: s in e.streams && s !in c.streams ==> Ordered(e.streams[s]))
  }

  lemma CreatingIsQuiet(c: Client, t: Tid, choice: Choice)
    requires c.nextSid !in c.streams
    ensures Quiet(c, Checked(c, t, choice))
  {
    var none: seq<nat> := [];
    assert none + none == none;
  }

  lemma LocksAreQuiet(c: Client, t: Tid)
    requires CanProceed(c, t, Go) && (WantsC(c.pcs[t]) || WantsS(c.pcs[t]).Some?)
    ensures Quiet(c, Advanced(c, t, Go))
  {
  }

  lemma SameStreamsAreQuiet(c: Client, e: Client)
    requires e.streams == c.streams
    ensures Quiet(c, e)
  {
  }

  lemma OneStreamIsQuiet(c: Client, e: Client, s: Sid)
    requires s in c.streams && s in e.streams && e.streams == c.streams[s := e.streams[s]]
    requires SameTraffic(c.streams[s], e.streams[s])
    ensures Quiet(c, e)
  {
  }

  lemma QuietTwice(c: Client, d: Client, e: Client)
    requires Quiet(c, d) && d.streams.Keys == c.streams.Keys && Quiet(d, e) && e.streams.Keys == d.streams.Keys
    ensures Quiet(c, e)
  {
  }

  lemma DetachIsQuiet(c: Client, t: Tid)
    requires Has(c, c.registered)
    ensures Quiet(c, Detach(c, t)) && Detach(c, t).streams.Keys == c.streams.Keys
  {
    if c.registered.None? {
      SameStreamsAreQuiet(c, Detach(c, t));
    } else {
      OneStreamIsQuiet(c, Detach(c, t), c.registered.value);
    }
    hide Quiet;
  }

  lemma SwapIsQuiet(c: Client, t: Tid, s: Sid)
    requires Has(c, c.registered) && s in c.streams
    ensures Quiet(c, Swapped(c, t, s))
  {
    var d, e := Detach(c, t), Swapped(c, t, s);
    DetachIsQuiet(c, t);
    hide Quiet;
    assert s in d.streams && e.streams == d.streams[s := d.streams[s].(published := true)];
    OneStreamIsQuiet(d, e, s);
    QuietTwice(c, d, e);
  }

  lemma DetachesAreQuiet(c: Client, t: Tid, choice: Choice)
    requires CanProceed(c, t, choice)
    requires var pc := c.pcs[t]; pc.SwapHold? || pc.PassHold? || pc.LostHold? || pc.EndHold?
    ensures Quiet(c, Advanced(c, t, choice))
  {
    hide Quiet;
    var e := Advanced(c, t, choice);
    if c.pcs[t].SwapHold? {
      SwapIsQuiet(c, t, c.pcs[t].s);
    } else if e.streams == c.streams {
      SameStreamsAreQuiet(c, e);
    } else {
      DetachIsQuiet(c, t);
      assert e.streams == Detach(c, t).streams;
      SameStreamsAreQuiet(Detach(c, t), e);
      QuietTwice(c, Detach(c, t), e);
    }
  }

  lemma OthersAreQuiet(c: Client, t: Tid, choice: Choice)
    requires CanProceed(c, t, choice)
    requires var pc := c.pcs[t];
      pc.AskHold? || pc.Asking? || pc.Reading? || pc.CloseHold? || pc.MarkedHold? || pc.NotifyHold?
    ensures Quiet(c, Advanced(c, t, choice))
  {
    hide Quiet;
    var e, pc := Advanced(c, t, choice), c.pcs[t];
    if pc.AskHold? || pc.Asking? || pc.Reading? {
      SameStreamsAreQuiet(c, e);
    } else {
      OneStreamIsQuiet(c, e, pc.s);
    }
  }

  lemma ProceedKeepsOrder(c: Client, t: Tid, choice: Choice)
    requires AllOrdered(c) && CanProceed(c, t, choice) && c.nextSid !in c.streams
    ensures AllOrdered(Advanced(c, t, choice))
  {
    var e, pc := Advanced(c, t, choice), c.pcs[t];
    if pc.PushHold? {
      PushKeepsOrder(c.streams[pc.s], pc.m);
    } else {
      if WantsC(pc) || WantsS(pc).Some? {
        LocksAreQuiet(c, t);
      } else if pc.CheckHold? {
        CreatingIsQuiet(c, t, choice);
      } else if pc.SwapHold? || pc.PassHold? || pc.LostHold? || pc.EndHold? {
        DetachesAreQuiet(c, t, choice);
      } else {
        OthersAreQuiet(c, t, choice);
      }
      QuietKeepsOrder(c, e);
    }
  }

  lemma TakingKeepsOrder(c: Client, s: Sid)
    requires AllOrdered(c) && Enabled(c, Take(s))
    ensures AllOrdered(Step(c, Take(s)))
  {
    var x, y := c.streams[s], Step(c, Take(s)).streams[s];
    assert Ordered(x) && y.received + y.stream.buffer == x.received + x.stream.buffer;
  }

  lemma StepKeepsOrder(c: Client, a: Action)
    requires Inv(c) && AllOrdered(c) && Enabled(c, a)
    ensures AllOrdered(Step(c, a))
  {
    if a.Proceed? {
      ThreadKnows(c, a.t);
      ProceedKeepsOrder(c, a.t, a.choice);
    } else if a.Take? {
      TakingKeepsOrder(c, a.s);
    } else {
      QuietKeepsOrder(c, Step(c, a));
    }
  }

  lemma QuietKeepsOrder(c: Client, e: Client)
    requires AllOrdered(c) && Quiet(c, e)
    ensures AllOrdered(e)
  {
  }

  lemma {:induction false} RunKeepsOrder(c: Client, run: seq<Action>)
    requires Inv(c) && AllOrdered(c) && Run(c, run)
    ensures AllOrdered(After(c, run))
    decreases |run|
  {
    hide Inv, Step, Enabled;
    if run != [] {
      StepKeepsInv(c, run[0]);
      StepKeepsOrder(c, run[0]);
      RunKeepsOrder(Step(c, run[0]), run[1..]);
    }
  }

  /** In every interleaving, what a stream's receiver has had, and what waits for
      it, is an in-order subsequence of what the read loop pushed at it. */
  lemma ReceivedInOrder(run: seq<Action>, s: Sid)
    requires Run(START, run) && s in After(START, run).streams
    ensures var x := After(START, run).streams[s]; Subsequence(x.received + x.stream.buffer, x.offered)
  {
    RunKeepsOrder(START, run);
    assert Ordered(After(START, run).streams[s]);
  }
}
