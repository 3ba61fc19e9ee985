# Emergent: a verified model

Emergent runs a topology of sources, handlers and sinks. A Rust engine spawns
each primitive as a child process, restarts it within a budget, decides from the
kernel's process table which connection belongs to which primitive, holds every
connection to its declared topics, and takes the topology down tier by tier. The
Go SDK speaks a framed protocol to the engine and streams items between handlers
by pull.

This project models those parts in Dafny and proves what they promise, over all
inputs and over whole runs. Where the source changes state step by step, the
model is a class or a method with loops, proved equal to a function; the
properties are then lemmas about that function. Where the source is concurrent,
the model is a state machine whose steps are what one goroutine, task or handler
does between two points at which another can run, and the properties hold in
every state that any interleaving reaches.

| module | models |
|---|---|
| `Streams`, `PullStream`, `PullTurns`, `PullProtocol`, `PullFailures` | a Go message stream; the loops of `StreamOffer` and `StreamConsume`; what they do, told on the messages; both ends against two lossy channels; the runs in which that fails |
| `Framing` | frame encoding and the incremental read loop, with the body codec as a parameter |
| `PendingRequests`, `RequestCauses` | the Go client's requests in flight over all interleavings, and why each call returned what it did |
| `StreamLocks`, `StreamArrivals`, `StreamCauses` | the client's two locks and its streams over all interleavings; which pushes reach a stream; why a stream closes |
| `Supervision`, `RestartClock`, `PrimitiveActor`, `ActorNews` | backoff and the restart budget; the clocks on which it holds; one primitive's actor, mailbox, tasks and child; what the actor is told and does about it |
| `Ancestry`, `Registry`, `Revocation`, `Readiness` | naming a peer by its ancestry; the connections held for a primitive; whose connections a revocation closes; who has subscribed at startup |
| `Shutdown`, `ShutdownOrder` | the phased shutdown and its waits; its order, told on the log and the actors |
| `Topics`, `Declarations` | subscription topics with wildcards; declared-topic enforcement |
| `Life`, `Sorting`, `Topology` | the Game of Life world; sorting; the canonical topology answer |

What a function of the model computes is also said without it, on the data alone:
the fields of a message, the bytes of a buffer, the events of a run, the texts of a
topic, the list of actors. `PullTurns`, `RequestCauses`, `StreamArrivals`,
`StreamCauses`, `ActorNews` and `ShutdownOrder` hold most of these.

Some promises turn out to hold only under a condition. Each is proved with its
exact condition, in both directions, and with an input or a run that fails it:

- The frame loop handles a stream the same however it is cut into reads, if and
  only if the stream has no bad header, or its bad header is completed by its
  very last byte (`Framing.ChunkIndependence`): the reset drops what the same
  read brought.
- The restart backoff doubles at every attempt, as documented, if and only if
  the backoff is zero or its 62nd doubling reaches the ceiling
  (`Supervision.BackoffDoublesUpToTheCap`): the code stops doubling there.
- The restart budget holds on given exit times, for every policy, limits and
  exit codes, if and only if the clock never comes back nearer to an earlier exit
  than it had run ahead of it, and no exit at the epoch has another after it
  (`RestartClock.BudgetHoldsExactly`). A clock that does not step back is one
  such case, and there more is proved (`Supervision.RestartBudgetHolds`).
- The pull protocol is safe in every interleaving if and only if no item offered
  under the type `stream.end` or `stream.pull` names the stream in its payload
  (`PullFailures.SafeExactlyWhenWellNamed`). Under the first type such an item
  reads as the end of its stream; under the second the engine delivers it back to
  the offerer, where it reads as a pull. Both come with a run from the start.
- A pull without faults ends with both calls returning n if and only if the first
  ready of the data type that the consumer takes is this stream's own
  (`PullProtocol.FaultlessRunsFinish`). A ready of another stream of the same type,
  taken first, leaves both calls to their timeouts, by a run from the start
  (`PullFailures.ForeignReadyTakenFirst`).
- A request that is listed and waiting is timed out by its own timer if and only
  if that timer's callback has not run before
  (`PendingRequests.ListedRequestTimesOut`): a timer that fires between being
  armed and the listing leaves a request without a timeout, by example
  (`EarlyTimerLeavesNoTimeout`).
- Polling for readiness in batches confirms what one look with the final child
  table would, if and only if each name that table gives to a dropped observation
  it also gives to one that was never dropped
  (`Readiness.BatchedPollsConfirmEverything`). With a growing table nothing is
  dropped exactly while no poll has more than 64 unknown observations behind it
  (`RoomyPollsConfirmEverything`); one more loses a name (`OverflowLosesAName`).
- A revocation closes no running child's connection if and only if none of the
  last 64 connections admitted since the exit was read is the running child's
  (`Revocation.RevocationSparesTheReplacementExactly`), and an exit is read at all
  if and only if the task had read a child before and every child spawned meanwhile
  has gone too
  (`Revocation.ExitIsNoticedExactly`). `process_manager.rs` says that a revocation
  cannot reach the connections of a replacement child; that holds where it is over
  before the replacement is spawned (`RevocationBeforeTheReplacement`), and two
  runs show the rest (`SlowRevocationTakesTheReplacement`, `SlowReadMissesTheExit`).
- A pid watch that is clear stays clear once its actor knows of the shutdown, if
  and only if no spawn is in flight (`PrimitiveActor.WatchStaysClearExactly`).
- A peer's answer is true if and only if the pid watch it goes through is not
  reaped and uncleared, or its pid is not held by a stranger
  (`Ancestry.AnswerIsTrueExactly`). `ipc_identity.rs` says there is no window in
  which a reaped pid is still in the child table. No await stands between the
  wait returning and the watch being cleared, but other threads run between the
  two, and in that window a recycled pid is named after the primitive
  (`RecycledPidIsNamed`).

## Model

| member | source | states |
|---|---|---|
| Streams.MessageStream.constructor | sdks/go/stream.go:23-32 | a new stream is open, empty and has the given buffer size |
| Streams.MessageStream.Push | sdks/go/stream.go:99-111 | a push appends while the stream is open and has room, and otherwise drops the new message |
| Streams.MessageStream.Close | sdks/go/stream.go:67-80 | closing closes once, keeps what is buffered, and tells the client only the first time |
| Streams.MessageStream.Receive | sdks/go/stream.go:41-64 | a receive takes the oldest buffered message, and sees the end only when the closed buffer is empty |
| Streams.ReceivesInOrder | sdks/go/stream.go:99-111 | over every use of a stream, what was received and what waits is an in-order subsequence of what was pushed |
| Streams.ClosedStreamOnlyDrains | sdks/go/stream.go:67-80 | once closed, whatever happens, a stream hands out exactly what it had buffered, in order |
| Streams.FullStreamDropsTheNewest | sdks/go/stream.go:99-111 | pushes at an open stream fill its room with the first that fit, in order, and the later ones are dropped |
| PullStream.StreamOffer | sdks/go/handler.go:89-152 | the offer loop publishes and returns exactly what folding the protocol's turns gives, for every outcome of its selects and publishes |
| PullStream.AwaitReady | sdks/go/handler.go:157-183 | the consumer's wait binds to the first ready that announces its type, as the fold of its turns does |
| PullStream.TakeItems | sdks/go/handler.go:185-238 | the consumer's item loop passes on, pulls and returns exactly what folding the protocol's turns gives |
| PullStream.StreamConsume | sdks/go/handler.go:157-238 | both loops together are one fold from awaiting a ready |
| PullTurns.OfferFollowsItsPulls | sdks/go/handler.go:89-152 | told on the messages alone: an offerer answers each pull naming its stream with the next item and after the last with the end, sends nothing else, and ends with the end, or with the error of the first turn that brings no message or that it fails to answer |
| PullTurns.ConsumeAwaitsItsReady | sdks/go/handler.go:157-195 | told on the messages alone: an awaiting consumer passes over every message that is not a ready announcing its type and naming a stream, publishing nothing; the first one binds it and is answered with one pull |
| PullTurns.ConsumeTakesItsItems | sdks/go/handler.go:197-238 | told on the messages alone: a bound consumer passes on the items of its stream in order with one pull each, up to the end, a turn without a message, or a pull that fails, and ends with that turn's outcome |
| PullProtocol.PartiesRunTheirLoops | sdks/go/handler.go:89-238 | in any run each party is where its own loop is after the turns it was dealt |
| PullProtocol.StepKeepsInv | sdks/go/handler.go:89-238 | every step of either party, the engine or a stranger keeps the token invariant |
| PullProtocol.PullStreamIsSafe | sdks/go/handler.go:89-238 | in every interleaving, echoes of the offerer's own publishes included, the consumed items are a prefix of the offered ones, at most one behind the published, with at most one token outstanding; a consumer that returns had them all |
| PullProtocol.FaultlessRunsAreFinite | sdks/go/handler.go:105-237 | whatever stream the consumer binds to and whatever foreign messages come, a run without faults takes at most 4n + 7 steps, 2n more where items come back to the offerer and five more per foreign message |
| PullProtocol.BoundToTheFirstReady | sdks/go/handler.go:174-183 | a consumer is bound to a stream after a run if and only if some step took a stream.ready announcing its type and naming that stream, with no ready of the type taken before |
| PullProtocol.FaultlessRunsFinish | sdks/go/handler.go:105-237 | where a run without faults cannot go on, both calls returned n exactly when the consumer took this stream's ready first; then only three steps more per foreign message were taken, readies of other streams included |
| PullProtocol.UnfinishedCanStep | sdks/go/handler.go:105-237 | an unfinished faultless run whose consumer is not bound elsewhere always has a next step of its own |
| PullFailures.ItemNamingItsStreamReadsAsEnd | sdks/go/handler.go:211-217 | in every stream of stream.end messages with an item that names the stream, a run from the start returns without the first such item |
| PullFailures.ItemNamingItsStreamReadsAsPull | emergent-engine/src/main.rs:962-978 | in every such stream of stream.pull messages, a run from the start publishes the next item, or the end, unasked |
| PullFailures.SafeExactlyWhenWellNamed | sdks/go/handler.go:89-238 | every interleaving is safe exactly when no item of those two types names the stream |
| PullFailures.ForeignReadyTakenFirst | sdks/go/handler.go:174-183 | a run from the start, without faults, in which another stream's ready comes first: it cannot go on, nothing was published and neither call has returned |
| Framing.EncodeFrame | sdks/go/protocol.go:60-91 | fills the buffer with the big-endian length, version, type, format and body, or reports the codec's failure or an over-long body |
| Framing.Uint32RoundTrips | sdks/go/protocol.go:83-84 | the four length bytes read back as the length |
| Framing.NextFrameIsStable | sdks/go/protocol.go:124-188 | once the front of a buffer is decided, bytes that arrive later do not change it |
| Framing.FrontsAreReadByTheirBytes | sdks/go/protocol.go:124-188 | byte by byte, exactly when the front of a buffer is incomplete, a bad header, a bare header, a bad body or a decoded frame |
| Framing.FramesAreWrittenByTheirBytes | sdks/go/protocol.go:60-91 | byte by byte, what an encoded frame holds, and exactly when encoding fails and how |
| Framing.NextFrameReadsEncoded | sdks/go/protocol.go:124-188 | an encoded frame is read back whole, whatever follows it |
| Framing.TryDecodeWaitsForTheWhole | sdks/go/protocol.go:190-202 | an encoded frame is answered exactly when all of it is there, and any shorter piece is not yet one |
| Framing.FrameReader.DispatchFrames | sdks/go/client.go:860-887 | the loop over the shared buffer handles and leaves exactly what a parse of it gives, and ends |
| Framing.FrontsAreDispatched | sdks/go/client.go:860-887 | byte by byte, what a pass does with the front of its buffer: reset, wait, skip or handle, and go on behind it |
| Framing.FrameReader.ReadChunk | sdks/go/client.go:770-777 | a read appends to the buffer and then dispatches |
| Framing.ParseResumes | sdks/go/client.go:860-887 | parsing resumes where it left off when more bytes come |
| Framing.ResetDropsTheRest | sdks/go/client.go:870-874 | a bad header drops everything buffered with it |
| Framing.BadHeaderOfPrefix | sdks/go/protocol.go:124-188 | where in a stream the first bad header shows |
| Framing.ChunkIndependence | sdks/go/client.go:860-887 | every split into reads agrees with one parse, if and only if there is no bad header before the last byte |
| Framing.FramingRoundTrip | sdks/go/protocol.go:60-188 | encoded messages, concatenated and read in any chunks, arrive whole and in order with nothing left over |
| PendingRequests.RequestTable.RegisterRequest | sdks/go/client.go:1184-1194 | a request is listed unless the client is closed or not connected, re-checked under the lock |
| PendingRequests.RequestTable.TimerCallback | sdks/go/client.go:1173-1182 | the timer unlists the request and goes on to send only if it was listed |
| PendingRequests.RequestTable.Withdraw | sdks/go/client.go:1196-1219 | a call that cannot send, or whose context ends, unlists its request and returns why |
| PendingRequests.RequestTable.HandleResponse | sdks/go/client.go:921-951 | a response stops the timer, settles its own request and unlists it; one for no listed request changes nothing |
| PendingRequests.RequestTable.FailPending | sdks/go/client.go:799-826 | every listed request is settled with the error and unlisted, in whatever order |
| PendingRequests.RequestTable.EngineClosedConnection | sdks/go/client.go:787-795 | a lost connection settles everything listed |
| PendingRequests.RequestTable.Close | sdks/go/client.go:683-711 | close settles everything once and refuses later requests |
| PendingRequests.StepKeepsInv | sdks/go/client.go:1170-1224 | every step of any goroutine keeps the ownership invariant of every request |
| PendingRequests.EachRequestSettlesOnce | sdks/go/client.go:1170-1224 | a waiting call has exactly one of its map entry, a buffered result and a timer about to send; no channel gets a second value; a reply is its own; and a call that has its value, or returned, has no timer that can fire |
| RequestCauses.ReturnedResultsHaveTheirCause | sdks/go/client.go:1170-1224 | over every run from the start, whatever a call returned has its cause in the run: a reply is the body of a response that arrived while the request was listed, and each error is a refused registration, a failed write, an ended context, a lost connection or a close while listed, or its own timer's send |
| RequestCauses.OneEventSettles | sdks/go/client.go:799-951 | at most one response, loss, close or timeout of a run settles a request |
| RequestCauses.CausesAreReturned | sdks/go/client.go:1213-1224 | and a call that takes its value after that returns exactly what that event gave, a reply with its very body; one whose context ended, write failed or registration was refused returns that |
| PendingRequests.SettlementsAreNotDropped | sdks/go/client.go:799-951 | the non-blocking send never drops a listed request's reply or error |
| PendingRequests.ClosedClientSettlesEverything | sdks/go/client.go:683-711 | after close nothing is ever listed and every waiting call can return on its own |
| PendingRequests.LostConnectionSettlesEverything | sdks/go/client.go:787-795 | at the moment a lost connection is handled, nothing is listed and every call then waiting can return on its own; a call listed later is not meant |
| PendingRequests.ListedRequestTimesOut | sdks/go/client.go:1170-1224 | a listed, waiting call ends with its own timer's error, on the timer's steps alone, exactly when the run has not had that timer's callback; otherwise no run ends it so |
| PendingRequests.EarlyTimerLeavesNoTimeout | sdks/go/client.go:1170-1224 | a run in which the timer fires before the request is listed, which then has no timeout |
| StreamLocks.StepKeepsInv | sdks/go/client.go:168-280 | every step of any thread, refused topics and a second request for patterns included, keeps the two locks' and the streams' invariant |
| StreamLocks.StreamsNeverPanic | sdks/go/stream.go:67-111 | nothing is sent on a closed channel, no channel is closed twice, onClose runs at most once, and no thread waits for c.mu while it holds c.mu or an s.mu |
| StreamLocks.SomeThreadCanProceed | sdks/go/client.go:828-887 | no interleaving deadlocks |
| StreamLocks.NoStreamIsStranded | sdks/go/client.go:191-211 | when all is quiet every stream is closed and reported once, or is the registered one; a closed client has none |
| StreamLocks.CallbackSparesSuccessor | sdks/go/client.go:191-201 | an old stream's callback never unregisters its successor |
| StreamLocks.ReceivedInOrder | sdks/go/stream.go:99-111 | in every interleaving a receiver has an in-order subsequence of the pushes |
| StreamArrivals.DispatchedMessagesArrive | sdks/go/client.go:956-1006 | in every interleaving, what is pushed at a stream is exactly what was dispatched while it was registered, and what its receiver has had or can take is exactly what was pushed while it was open with room, in order |
| StreamCauses.StreamsCloseForCause | sdks/go/client.go:168-280 | in every interleaving a stream is closed, or being closed, if and only if its user closed it, its subscription was refused or found the client closed, or it lost its place to a newer one, a shutdown, a lost connection or the client's close |
| StreamCauses.QuietStreamsCloseForCause | sdks/go/client.go:191-211 | when all is quiet, a stream is closed exactly when the run called for that, and is the registered one otherwise |
| StreamCauses.DetachingForgets | sdks/go/client.go:828-835 | a stream loses its place in the very step that calls for its close |
| StreamCauses.StreamsAreMadeExactly | sdks/go/client.go:168-201 | a stream is made by a subscribe with usable topics on an open client and by nothing else, open, empty and with 256 places |
| StreamCauses.ClosedClientMakesNoStream | sdks/go/client.go:168-180 | once closed a client makes no stream, however the run goes on |
| Supervision.BackoffIsCappedDoubling | emergent-engine/src/supervision.rs:147-154 | the shift, the saturation and the cap on machine integers are min(backoff * 2^min(attempt - 1, 62), max) over unbounded ones |
| Supervision.BackoffIsMonotone | emergent-engine/src/supervision.rs:147-154 | a later attempt never waits less, and none waits past the ceiling |
| Supervision.BackoffDoublesUpToTheCap | emergent-engine/src/supervision.rs:141-154 | exactly when the delay is the documented doubling for every attempt |
| Supervision.LaterIsATail | emergent-engine/src/supervision.rs:161-164 | pruning an ascending list keeps exactly the tail past the cutoff |
| Supervision.DecisionIsExact | emergent-engine/src/supervision.rs:180-230 | exactly when an exit is restarted, by policy, exit code, shutdown and the restarts in the window; its number and its delay; and when it is suppressed, not wanted or out of budget |
| Supervision.PruneKeepsTheWindow | emergent-engine/src/supervision.rs:161-164 | what pruning keeps at an exit is exactly the grants still in the window, though earlier prunes shortened the list |
| Supervision.ExitKeepsBudget | emergent-engine/src/primitive_actor.rs:679-698 | one handled exit keeps the budget invariant |
| Supervision.RestartBudgetHolds | emergent-engine/src/supervision.rs:161-217 | over every sequence of exits no window holds more than max_retries restarts, the list never exceeds max_retries, and attempt numbers are right |
| Supervision.BudgetNeedsAClockThatDoesNotStepBack | emergent-engine/src/supervision.rs:161-217 | a clock that steps back can overrun the budget, by example |
| RestartClock.ClockedCannotOverrun | emergent-engine/src/primitive_actor.rs:679-698 | a clock past the epoch that does not step back is one on which no overrun is possible |
| RestartClock.BudgetHoldsExactly | emergent-engine/src/supervision.rs:161-217 | for every sequence of exit times, whether some policy, limits and exit codes overrun the budget, decided by the times alone |
| PrimitiveActor.NextStatusIsConsistent | emergent-engine/src/lifecycle.rs:102-149 | every event keeps pid set exactly when running or stopping, and error exactly when failed |
| PrimitiveActor.Actor.Apply | emergent-engine/src/primitive_actor.rs:375-386 | the one place the status changes sets the child pid with it and publishes it |
| PrimitiveActor.Actor.OnChildExited | emergent-engine/src/primitive_actor.rs:666-735 | prune, decide and remember, and the status each decision leaves |
| PrimitiveActor.Actor.OnRestartChild | emergent-engine/src/primitive_actor.rs:736-751 | a restart is dropped during shutdown or with a child up |
| PrimitiveActor.Actor.OnStopPrimitive | emergent-engine/src/primitive_actor.rs:765-795 | a stop suppresses restarts and signals the child the actor had |
| PrimitiveActor.Actor.Receive | emergent-engine/src/primitive_actor.rs:652-795 | each message does what its handler does, and leaves the published status equal to the actor's |
| PrimitiveActor.StepKeepsInv | emergent-engine/src/primitive_actor.rs:412-574 | every step of the actor, a task or the child keeps the one-token invariant, the status and the budget |
| PrimitiveActor.TakeExitKeepsBudget | emergent-engine/src/primitive_actor.rs:679-716 | a handled exit starts a backoff exactly when the budget grants a restart, under the granted number |
| PrimitiveActor.AtMostOneChild | emergent-engine/src/primitive_actor.rs:412-574 | in every reachable state there is at most one child and one task, the published pid is the unreaped child's or just reaped, pid, error and state agree, and a spawn under way reads as starting once it is heard of |
| PrimitiveActor.StaleGuardsNeverFire | emergent-engine/src/primitive_actor.rs:666-751 | an exit notice always names the current child, and a restart never finds one |
| ActorNews.NewsIsTrueInEveryRun | emergent-engine/src/primitive_actor.rs:412-574 | over every run, an exit that waits to be handled is of the last child forked, with the code that child ended with; a spawn or a failed spawn is the last one too, with its pid or error; and the child the actor holds is the last one forked |
| ActorNews.RestartsCarryTheirNumber | emergent-engine/src/primitive_actor.rs:699-716 | every backoff, and the restart it ends with, carries the number of the last grant |
| ActorNews.MessagesAreActedOn | emergent-engine/src/primitive_actor.rs:652-795 | in every reachable state, a stop terminates the held child, reads as stopping and suppresses restarts, and news of a spawn is taken as it is |
| ActorNews.ExitsAreActedOn | emergent-engine/src/primitive_actor.rs:666-735 | in every reachable state a handled exit leads to a backoff, a spent budget, stopped after code 0 or 143, or failed with its code, exactly as policy, code and window say |
| PrimitiveActor.SignalReachesTheUnreapedChild | emergent-engine/src/primitive_actor.rs:765-785 | the pid the actor would signal is its unreaped child's exactly while no exit of it is outstanding |
| PrimitiveActor.SetWatchHasASender | emergent-engine/src/primitive_actor.rs:417-574 | the pid watch is clear when it is set, and while set the task that will clear it holds its sender |
| PrimitiveActor.SpawnsAreBudgeted | emergent-engine/src/primitive_actor.rs:679-751 | every fork after the first is for a granted restart, and grants keep to the budget in every window unless the exit times allow an overrun |
| PrimitiveActor.QuietMeansDown | emergent-engine/src/primitive_actor.rs:412-795 | with nothing left to do there is no child, and the status says stopped or failed, or starting where shutdown overtook a backoff |
| PrimitiveActor.NoSpawnAfterShutdown | emergent-engine/src/primitive_actor.rs:736-770 | once the actor knows of the shutdown, at most the spawn already started can still fork |
| PrimitiveActor.ClearedWatchStaysClear | emergent-engine/src/primitive_actor.rs:135-165 | after that, with no spawn in flight, a cleared pid watch stays clear |
| PrimitiveActor.WatchStaysClearExactly | emergent-engine/src/primitive_actor.rs:135-165 | and it does so exactly then: a spawn in flight can still set it |
| PrimitiveActor.ShutdownComesToRest | emergent-engine/src/primitive_actor.rs:412-795 | after the last notice every run is finite, with an explicit bound |
| PrimitiveActor.UnfinishedCanStep | emergent-engine/src/primitive_actor.rs:412-795 | a task or a message always has a next step |
| Ancestry.ResolveAncestry | emergent-engine/src/ipc_identity.rs:272-298 | the loop is the recursive climb of at most sixteen looks |
| Ancestry.Walk | emergent-engine/src/ipc_identity.rs:419-437 | the retry loop answers with the first look that is not an unrecorded child, or the last |
| Ancestry.ClimbNamesTheNearest | emergent-engine/src/ipc_identity.rs:272-298 | exactly when a walk names a primitive: the nearest recorded ancestor is near enough with nothing in the way |
| Ancestry.ClimbReachesTheEngine | emergent-engine/src/ipc_identity.rs:272-298 | exactly when a walk answers an unrecorded child: the engine, itself unrecorded, is near enough with nothing recorded, nor init, nor a gap below it |
| Ancestry.StepKeepsInv | emergent-engine/src/ipc_identity.rs:24-48 | fork, exit with reparenting, spawning, recording, reaping and, as a step of its own, clearing keep the process tree true and every watch true that is not waiting to be cleared |
| Ancestry.NamedPeersAreTrue | emergent-engine/src/ipc_identity.rs:24-48 | in every reachable kernel, a peer named after a primitive not between reaping and clearing truly descends from the unreaped process spawned for it |
| Ancestry.AnswerIsTrueExactly | emergent-engine/src/ipc_identity.rs:26-48 | exactly when an answer is true: its watch is not reaped and uncleared, or the watch's pid is not held by a stranger |
| Ancestry.AnswersAreTrueExactly | emergent-engine/src/ipc_identity.rs:26-48 | a reachable kernel gives only true answers exactly when no stranger holds the pid of a reaped and uncleared watch |
| Ancestry.RecycledPidIsNamed | emergent-engine/src/ipc_identity.rs:30-37 | a run from boot in which a stranger under a recycled pid is named after the primitive, between the reaping and the clearing |
| Ancestry.UnrecordedExactly | emergent-engine/src/ipc_identity.rs:253-298 | in every reachable kernel, a peer is answered as an unrecorded child if and only if fewer than sixteen parents lead from it to the engine and none of them is recorded |
| Ancestry.FreshChildIsUnrecorded | emergent-engine/src/ipc_identity.rs:253-260 | in every reachable kernel, a process spawned for a primitive and not recorded yet is answered so, and never as a stranger |
| Ancestry.UnrecordedPeersAreInside | emergent-engine/src/ipc_identity.rs:253-260 | only a true descendant of the engine is answered as an unrecorded child |
| Ancestry.UnbrokenChainsAreNamed | emergent-engine/src/ipc_identity.rs:245-298 | an unbroken chain of fewer than sixteen parents to a recorded child is named after it, exactly when no reaped and uncleared watch's pid lies below |
| Registry.RememberKeepsTheLast | emergent-engine/src/ipc_identity.rs:527-534 | remembering a fresh id keeps the last ones and evicts the oldest |
| Registry.HeldAreTheLastAdmitted | emergent-engine/src/ipc_identity.rs:583-647 | over every run a primitive holds exactly the last 64 ids admitted since its child last went, in order and distinct |
| Registry.HeldStayBounded | emergent-engine/src/ipc_identity.rs:527-534 | even with replayed ids no primitive holds one twice or more than 64 |
| Registry.EventsKeepToTheirPrimitive | emergent-engine/src/ipc_identity.rs:583-647 | an event about one primitive leaves what every other holds |
| Registry.HeldAreDisjoint | emergent-engine/src/ipc_identity.rs:583-647 | over every run with fresh ids no connection is held for two primitives |
| Registry.RevokeEach | emergent-engine/src/ipc_identity.rs:634-639 | each id is asked for once, in order, and the answer counts those that were open |
| Registry.ConnectionRegistry.InstallRevoker | emergent-engine/src/ipc_identity.rs:573-577 | only the first listener installed is kept |
| Registry.ConnectionRegistry.Record | emergent-engine/src/ipc_identity.rs:583-600 | an admission is remembered for its primitive, and ignored when it has none |
| Registry.ConnectionRegistry.ConnectionsFor | emergent-engine/src/ipc_identity.rs:603-610 | the ids held, distinct and at most 64 |
| Registry.ConnectionRegistry.RevokeAll | emergent-engine/src/ipc_identity.rs:616-647 | forgets the ids in any case and asks an installed listener for each once; where no connection is held for two primitives, it neither asks for nor closes one that another holds |
| Revocation.RevocationSparesTheReplacementExactly | emergent-engine/src/process_manager.rs:421-444 | exactly when a revocation closes no running child's connection |
| Revocation.RevocationBeforeTheReplacement | emergent-engine/src/process_manager.rs:421-444 | a revocation that is over before the next child is spawned closes none of its connections |
| Revocation.ExitIsNoticedExactly | emergent-engine/src/process_manager.rs:433-443 | the watching task sees an exit exactly when it had read a child before and every child spawned before it reads again has gone too |
| Revocation.SlowRevocationTakesTheReplacement | emergent-engine/src/process_manager.rs:421-444 | a run in which a revocation closes the replacement's connection |
| Revocation.SlowReadMissesTheExit | emergent-engine/src/process_manager.rs:433-443 | a run in which the exit is never acted on and the gone child's connection stays held |
| Readiness.Absorb | emergent-engine/src/readiness.rs:234-259 | the loop confirms every name the table gives and keeps the first 64 it cannot name |
| Readiness.FoldsByTheObservations | emergent-engine/src/readiness.rs:200-259 | told on the observations: a fold confirms exactly the names that a named one carries or the table gives to a pid, and keeps the first 64 of those that tell of nobody, in order |
| Readiness.BatchesFoldAsOne | emergent-engine/src/readiness.rs:234-259 | two batches with one table are one fold, cap included |
| Readiness.AnyBatchesFoldAsOne | emergent-engine/src/readiness.rs:234-259 | so are any number |
| Readiness.FoldsLoseOnlyTheDropped | emergent-engine/src/readiness.rs:228-259 | with a growing table nothing is lost but what the cap dropped |
| Readiness.EveryObservationIsAccountedFor | emergent-engine/src/readiness.rs:228-259 | each observation is named by some fold, waits still or was dropped, and just one of the three |
| Readiness.BatchedPollsConfirmEverything | emergent-engine/src/readiness.rs:228-259 | batched polling confirms what one look with the last table would, exactly when the names of dropped observations are those of others never dropped |
| Readiness.RoomyPollsConfirmEverything | emergent-engine/src/readiness.rs:214-259 | with a growing table nothing is dropped exactly when no poll has more than 64 unknown observations behind it, and then everything is confirmed |
| Readiness.OverflowLosesAName | emergent-engine/src/readiness.rs:214-259 | sixty-five unknown pids, the last named by a later table: one look confirms it and two polls lose it |
| Readiness.TierWaitsOnTheUnheard | emergent-engine/src/readiness.rs:120-171 | a tier waits on exactly its running, subscribing, unheard members, sorted, and is ready when there is none |
| Readiness.VerdictIgnoresOrder | emergent-engine/src/readiness.rs:159-171 | the verdict does not depend on the order the members are listed in |
| Readiness.HeardIsNeverWaitedOnAgain | emergent-engine/src/readiness.rs:115-171 | a confirmed name never returns to waiting_on |
| Readiness.WaitForTier | emergent-engine/src/process_manager.rs:379-419 | the wait ends at its first ready turn or its first turn past the deadline, and names the unheard only then |
| Shutdown.WaitForChildrenExit | emergent-engine/src/primitive_actor.rs:172-193 | the loop over the watches returns who runs when it is over |
| Shutdown.WaitEndsAtTheLastExit | emergent-engine/src/primitive_actor.rs:166-193 | a wait ends the moment the last child is gone, or at the one shared deadline |
| Shutdown.ShutdownPhase | emergent-engine/src/process_manager.rs:583-643 | what a phase does and when, event by event |
| Shutdown.PhaseIsBounded | emergent-engine/src/process_manager.rs:583-643 | a phase takes at most drain, grace and the reap timeout, however many children there are |
| Shutdown.EveryChildIsGoneOrKilled | emergent-engine/src/process_manager.rs:617-636 | at a phase's end every child is gone or was sent SIGKILL |
| Shutdown.KillsFollowTheGrace | emergent-engine/src/process_manager.rs:609-628 | SIGKILL only goes to a child that runs on exactly the grace after every target was asked to stop |
| Shutdown.DrainedPhaseSignalsNobody | emergent-engine/src/process_manager.rs:602-615 | children that leave within the drain are not signalled, and the phase ends with the last of them |
| ShutdownOrder.PhaseLogHolds | emergent-engine/src/process_manager.rs:583-643 | event by event, exactly what a phase's log holds: its broadcast, a stop for every target if any child outlasts the drain, SIGKILL for exactly the children that outlast the grace, and a stop of every actor |
| Shutdown.GracefulShutdown | emergent-engine/src/process_manager.rs:529-562 | the notices and the three phases, one after the other |
| Shutdown.TiersGoDownInOrder | emergent-engine/src/process_manager.rs:516-550 | sources are gone or killed before handlers are told, and handlers before sinks, and the log is in time order |
| Shutdown.ShutdownIsBounded | emergent-engine/src/process_manager.rs:529-643 | the whole shutdown takes at most two drains, three graces and three reap timeouts |
| Shutdown.TiersHoldTheirKind | emergent-engine/src/process_manager.rs:565-576 | a tier is the targets of exactly the actors of its kind, in order and one for each, told on the actors |
| ShutdownOrder.TiersAreThreeWaits | emergent-engine/src/process_manager.rs:529-643 | each kind's phase is a drain, which sources are not given, a grace and a reap, each over when its last child is gone, and the next kind's begins when it is over |
| ShutdownOrder.NobodyIsTouchedEarly | emergent-engine/src/process_manager.rs:516-576 | of uniquely named actors, none is stopped, killed or ended before the phase of its kind begins |
| ShutdownOrder.EarlierTiersAreDown | emergent-engine/src/process_manager.rs:516-576 | when the handlers' phase begins every source's child is gone or was sent SIGKILL, and every handler's too when the sinks' begins |
| ShutdownOrder.EveryActorIsToldAndStopped | emergent-engine/src/process_manager.rs:529-643 | every actor is told of the shutdown at its start and stopped at its phase's end, and its kind is announced when the phase begins |
| Topics.PartitionTopics | sdks/go/topics.go:109-123 | the first unusable topic refuses the request; otherwise each topic is in its own list, in order |
| Topics.PartsKeepTheOrder | sdks/go/topics.go:109-123 | each topic is in its own list at the place the caller's order gives, as often as the caller has it, and nothing else is |
| Topics.TopicsAreClassifiedByText | sdks/go/topics.go:42-84 | exactly when a topic is exact, a pattern, empty, misplaced or too long, told on its text |
| Topics.TopicsMatchByText | sdks/go/topics.go:86-98 | exactly what a topic matches, told on the texts |
| Topics.MatchesSomethingOrMisplaced | sdks/go/topics.go:86-98 | a topic matches something exactly when its wildcard is in place |
| Topics.SplitMeansTheSame | sdks/go/topics.go:86-123 | a split request asks for the same messages as the topics it came from |
| Declarations.NewTopicSet | emergent-engine/src/declarations.rs:209-225 | the loop keeps usable exact topics in a set and the prefixes of usable patterns in a list |
| Declarations.PermitsIsAPlainScan | emergent-engine/src/declarations.rs:192-235 | the prepared set permits exactly what some declared topic covers, told on the texts: the type itself without a star, or a prefix of it with one star at the end, in at most 256 bytes |
| Declarations.PermittedTopicsAreCovered | sdks/rust/src/subscribe.rs:81-129 | permitting a requested topic's text is permitting every message type it matches |
| Declarations.CheckFindsViolations | emergent-engine/src/declarations.rs:183-311 | a check finds a violation exactly when the declarations do not allow the operation, with the protocol texts and the governing list of each operation spelled out, and says which |
| Declarations.ViolationsAreTheNotAllowed | emergent-engine/src/ipc_policy.rs:347-374 | the violations of a batch are exactly its topics that the declarations do not allow, in order, and none with enforcement off |
| Declarations.RequestViolationsAreTheFaults | emergent-engine/src/ipc_policy.rs:115-141 | a publish is held to the name the engine gave, or where claims count the one it writes; its violations are another's name and a type that name may not publish |
| Declarations.Record | emergent-engine/src/ipc_policy.rs:254-295 | a violation reaches the observer, and in strict mode is refused and reported if it has a name |
| Declarations.AuthorizeSubscribe | emergent-engine/src/ipc_policy.rs:347-374 | strict refuses a batch exactly when the primitive's subscribes do not allow one of its topics, for the first such one, with what is reported; otherwise it passes, each is logged and the subscribe is observed |
| Declarations.AuthorizeRequest | emergent-engine/src/ipc_policy.rs:298-340 | strict refuses a publish exactly when it writes another's name or its name's publishes do not allow the type, for the first of these, with what is reported; what is not a publish passes |
| Declarations.AuthorizedBatchesAreCovered | emergent-engine/src/ipc_policy.rs:347-374 | every message type that a topic of an authorized batch matches is protocol, or covered by the subscribes of the connection's own primitive, which is no source |
| Declarations.RefusedBatchesAreNotAllowed | emergent-engine/src/ipc_policy.rs:347-374 | what a batch is refused for is its first topic that the declarations do not allow |
| Declarations.AuthorizedPublishesAreOwn | emergent-engine/src/ipc_policy.rs:298-340 | strict lets a primitive publish exactly what its publishes cover, or protocol, and only in its own name; and an unmanaged one whose claim counts, what the claimed name's publishes cover |
| Declarations.StrangersGetOnlyProtocol | emergent-engine/src/ipc_policy.rs:115-141 | an unnamed connection gets the protocol topics and nothing else |
| Life.CountNeighbours | config/advanced-examples/game-of-life/world.py:69-75 | one cell's turn counts each of its eight neighbours once |
| Life.Evolve | config/advanced-examples/game-of-life/world.py:66-81 | the sparse count-and-keep loops give exactly the dense rule over the whole torus |
| Life.NextLivesByItsNeighbours | config/advanced-examples/game-of-life/world.py:66-81 | a cell lives next exactly when three living cells touch it on the torus, or two and it lives |
| Life.EvolutionCommutesWithMoves | config/advanced-examples/game-of-life/world.py:66-81 | any number of generations commutes with any translation of the torus |
| Life.GridToPayload | config/advanced-examples/game-of-life/world.py:84-93 | the published cells are strictly ascending, one per living cell, and decode back to the grid |
| Life.AscendingListsAgree | config/advanced-examples/game-of-life/world.py:92-92 | there is only one such list, so set order does not show |
| Life.CentredKeepsThePattern | config/advanced-examples/game-of-life/world.py:52-63 | seeding a pattern that fits loses none of its cells |
| Life.CentredIsHalfway | config/advanced-examples/game-of-life/world.py:52-63 | exactly which cells a centred pattern has: half of what its largest row and column leave, what falls off left out |
| Life.World.SeedPattern | config/advanced-examples/game-of-life/world.py:52-63 | seeding adds the centred cells that fall on the grid |
| Life.World.Process | config/advanced-examples/game-of-life/world.py:96-110 | a tick seeds or evolves and publishes the result; other messages do nothing |
| Topology.BuildTopologyPayload | emergent-engine/src/topology.rs:94-117 | the engine row, then the rows of the sorted primitives |
| Topology.PayloadIsCanonical | emergent-engine/src/topology.rs:73-117 | any two orderings of the same uniquely named primitives give the same answer |
| Topology.PayloadListsEveryPrimitive | emergent-engine/src/topology.rs:94-117 | the engine's row first, then each primitive once with its own fields and words, sources, handlers and sinks in turn and by name |

## Left out

- Sockets, signals, `/proc`, process spawning, clocks and the store: a step, a parameter or a history stands for what the program sees of them.
- The acton, tokio and Go runtimes: a mailbox is first in first out, a watch holds its latest value, a lock excludes, a goroutine or task runs on its own.
- The msgpack and JSON bodies: a codec parameter, with its round trip as a hypothesis where one is needed.
- Fresh names: correlation ids, stream ids and connection ids are taken to be new each time, as their generators promise.
- PullProtocol.PullStreamIsSafe: is about one consumer per stream; two consumers that pull from one stream are not modelled.
- The topology and subscription lookups of the Go client: unlike `sendRequest` they do not re-check that the client is open when they register, and they are not modelled.
- StreamLocks.StepKeepsInv: the lock protocol is a state machine on values; it lets a subscribe send any number of requests, not just two; which message types a client remembers as subscribed is not in it, and a user closes only streams that were handed out.
- A child that reports no pid right after it was spawned: that branch of the spawn is not modelled. A failed `wait` is: the child then lives on unmonitored.
- Ancestry.NamedPeersAreTrue: the snapshot of the child table and the walk are one step; a change in the middle of a walk is not modelled. Answers are judged for a pid that some process holds.
- Shutdown.GracefulShutdown: `announce_shutdown` sends the notices without waiting for them to be handled; the phases are proved for actors that have handled theirs, with no spawn in flight. They are not composed with the actor's own state machine beyond `PrimitiveActor.WatchStaysClearExactly`.
- Shutdown.WaitForChildrenExit: the branch for a watch whose sender is gone while it holds a pid is not in it; `PrimitiveActor.SetWatchHasASender` proves that state unreachable, since the task that clears the watch owns a sender.
- Topology.PayloadIsCanonical: uses sorting as a function; the standard library's sort is not modelled step by step.
- Texts of logs, events and refusals: a refusal is what its sentence says, not the sentence.
- Configuration, preflight checks, the HTTP API, retention, logging, publish replies, the marketplace and scaffolding: per-item checks and I/O that would only add easy members.
