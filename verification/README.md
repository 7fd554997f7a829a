# A verified model of the libwebsockets.swift client

The Swift client of libwebsockets.swift is a protocol between two threads. The
libwebsockets service thread runs one callback function; a NIO event loop runs
closures in the order in which they were scheduled. They meet in a few locked
boxes: the write queue `toBeWritten`, the close status, the connect promise, the
keepalive flag. This project models that protocol in Dafny 4.11 and proves what
holds in every interleaving of the two threads and the application.

`dafny verify dfyconfig.toml` checks the whole project.

## How the model is built

`ClientState` is a transition system. A state is one `Client` value; an event is
one lock section, one task of the event loop, one callback, or one call by the
application; `Next` performs an event if `Enabled` allows it and does nothing
otherwise, so every list of events is a run and `Reachable` covers every
interleaving. `markAsClosed` and the keepalive tick are three events each,
WRITEABLE and the `pingInterval` setter two, because other threads can act
between their lock sections. The results below are about every reachable state,
or about every continuation of every run.

A state carries histories: the frames written, the fragments received, the calls
accepted, the promises resolved. `History` reads the same things off the events
of a run (an `Execution`), without looking at what the steps record, and proves
that they agree. The results on sending, receiving, closing and the keepalive
are then stated on the events: what the write calls returned, what RECEIVE
brought, what was called while the client was open.

`WebsocketClients.WebsocketClient` is the client in the form of the source: an
object whose methods update its fields in place. `Handle` performs any event on
it and is proved to do what `Next` says, including events that are not enabled
and callbacks for a released client; `HandleAll` performs a list of events and
ends in `Steps`; `Simulate` does so from a fresh object. So the results about
runs are results about this object. The frame buffer, the context queues and the
pool are objects in the same way.

| file | part |
|---|---|
| `Protocol` | bytes, opcodes, close codes, queue entries |
| `MessageStream` | what a stream of fragments means; cutting fragments |
| `Fragmentation` | chunking by `send`; the frame grammar of section 5.4 of RFC 6455 |
| `FrameSequences` | the frame buffer and its growth |
| `Reassembly` | the fragment task on a whole stream |
| `ClientState` | the transition system |
| `Connection` | invariants of the connection and the write queue |
| `History` | what a run did, read off its events |
| `Accounting` | queue accounting and promise conservation |
| `CallOrder` | from the order of calls to the order of acceptance |
| `CloseProtocol` | closing |
| `ConnectPromise` | the connect promise |
| `PingPong` | the keepalive |
| `Receiving` | receiving over runs |
| `Violations` | closes requested by the receive side |
| `EndToEnd` | from `send` on one client to delivery on a peer |
| `ContextCallbacks` | the context's queues and the `deinit` handshake |
| `SharedContext` | many clients on one context |
| `ContextPool` | the pool of contexts |
| `WebsocketClients` | the client as an object |

## What is taken for granted

- `maxFrameSize` is positive, and `Data` is indexed from zero.
- libwebsockets is a lossless ordered channel, hands over every fragment with its
  bytes, and keeps the text/binary flag fixed for a whole message. A RECEIVE
  without a byte pointer does nothing and is not a step.
- CONNECTION_ERROR comes only when the handshake never completed
  (`Sources/Clibwebsockets/include/libwebsockets/lws-callbacks.h:477-480`).
- A nonzero return closes the connection and no WRITEABLE follows (same file, 33-34).
- PEER_INITIATED_CLOSE is for an unsolicited Close (436-444), CLOSED ends an
  established session (534-535), WSI_DESTROY is the last callback (118-119).
- A write returns 0 or -1, either one at any time. That covers the `nil` base
  address of an empty payload, which counts as -1.
- Tasks of one event loop do not overlap; timers fire at any time.
- A caller hands each send promise to one call.
- `deinit` and every callback except WRITEABLE are atomic. The last reference may
  go in more states than Swift allows, since closures that hold one are not
  required to have run; the claims cover those runs too.
- The application may call a client at any time from its creation on. The API
  hands it out only after ESTABLISHED (`WebsocketClient.swift:227`, 746-749), so
  the claims cover more runs than there are; `HeldCalls` singles out those.
- UTF-8 decoding is an arbitrary predicate on the whole payload.
- A promise that fails on the event loop runs its callbacks at once, so `send`
  and `close` can be re-entered from the loop in `markAsClosed` that fails the
  pending writes. By then the status is set and such a call fails its promise or
  does nothing; it is modelled as a call right after that loop.
- `send` looks for the connection twice, and WSI_DESTROY can come in between. The
  promise then fails as closed and not as not yet open. Which calls this happens
  to is an arbitrary predicate on promises (`Config.late`).

## What was found

- After a size overflow the accumulator is reset while the rest of the message
  may still arrive, and its tail then comes out as a message of its own
  (`OverflowDeliversTail`). `ReassemblyExact` says when the receive side is
  right: if and only if every message of several fragments is within the limit.
- `maxMessageSize` is documented to kill the connection for any larger message
  (`WebsocketClient.swift:160`), but a message that arrives in one fragment is
  not checked (`OversizedFragmentComesOut`). The model follows the code.
  `SizeBound` and `ReceiveSizeBound` say that a message above the limit comes out
  if and only if it arrived in one fragment; `OverflowIffUnfit` says that the
  limit is enforced if and only if a message of several fragments exceeds it.
- The documentation says received frames are split by `maxFrameSize`
  (`WebsocketClient.swift:146-147`). The code does not; no claim uses it.
- Assigning `pingInterval` while a tick is still queued or running leaves two
  live ticks (`TwoLiveTicks`). `OneLiveTick` says that this is exactly when it
  happens.
- A call of `shared()` that races with the creation of the pool can get no
  context (`RacingCallGetsNothing`). `ServedIffPoolExists` says that a call is
  sure to get one if and only if the pool exists when it starts.
- A client whose connection failed never calls `onClose`, not even when it is
  released (`ErrorIsFinal`).

## Model

| member | source | states |
|---|---|---|
| `EndToEnd.DeliveredIsPrefixOfSent` | Sources/libwebsockets/WebsocketClient.swift:505-897 | In every pair of runs: if the RECEIVE callbacks of one bring what the successful write calls of the other sent, in any cuts and up to any point, the messages delivered are a prefix of those of the calls made while the sender was open, same order, types and bytes; only undecodable texts are left out |
| `EndToEnd.AllDelivered` | Sources/libwebsockets/WebsocketClient.swift:505-897 | When the write calls of all frames of these calls succeeded, everything has arrived in any cuts and the peer's tasks have run, exactly the sent messages that decode are delivered |
| `EndToEnd.SuccessMeansDelivered` | Sources/libwebsockets/WebsocketClient.swift:505-897 | If the promise of a call succeeded, the wire has arrived in any cuts and the peer has run its tasks without overflow, the peer has delivered every decodable message up to that call, in order; a whole-message call itself is among them |
| `EndToEnd.SmallMessagesNeverOverflow` | Sources/libwebsockets/WebsocketClient.swift:532-570 | If the messages of the accepted calls, an unfinished one included, are within the peer's limit, the peer never overflows, however the wire is cut and wherever it stops |
| `EndToEnd.ArrivalMeaning` | Sources/libwebsockets/WebsocketClient.swift:532-570 | What arrives is a coherent fragment stream and carries a prefix of the messages sent |
| `EndToEnd.WireGrammar` | Sources/libwebsockets/WebsocketClient.swift:532-570 | In every reachable state the frames written obey section 5.4 of RFC 6455 if the accepted calls do |
| `EndToEnd.ChunksStayTogether` | Sources/libwebsockets/WebsocketClient.swift:546-570 | In every reachable state the chunks of one call are contiguous in written, in-flight, queued and dropped frames, and all of the call's kind, so no control frame falls between chunks |
| `Accounting.QueueAccounting` | Sources/libwebsockets/WebsocketClient.swift:546-570 | In every reachable state written, failed, in-flight, queued and dropped entries together are the chunk expansion of the accepted calls, in order |
| `Accounting.PromiseConservation` | Sources/libwebsockets/WebsocketClient.swift:451-574 | Every promise handed to `send` is in exactly one place; none is resolved twice; all are resolved once the client is closed and its tasks and writes are done |
| `Accounting.SuccessMeansWritten` | Sources/libwebsockets/WebsocketClient.swift:546-560 | In every run the promise of an accepted call succeeds if and only if the write calls of all its frames and of all earlier calls returned success, that is, if and only if the write call of its last frame came and did; a Close counts as written |
| `History.WrittenIsWhatSucceeded` | Sources/libwebsockets/WebsocketClient.swift:857-897 | The frames on the wire are exactly those whose write call returned success and the Close frames, the failed one is the one whose call did not, and the promises are settled by these results, by refusals and by closing |
| `History.OutcomeIsTheResult` | Sources/libwebsockets/WebsocketClient.swift:888-897 | A promise succeeds if and only if the write call for the frame that carries it returned success or was a Close, and fails as a failed write if and only if that call returned failure |
| `History.PoppedIsTried` | Sources/libwebsockets/WebsocketClient.swift:845-856 | Every WRITEABLE that finds a queue takes its first entry; what was taken was written, failed or is in flight |
| `History.CallAcceptedIffOpen` | Sources/libwebsockets/WebsocketClient.swift:519-574 | In every state a call that reaches the event loop joins the queue, with no promise resolved, if and only if there is a connection, it was connected, and there is neither error nor close status; otherwise its promise fails as closed after an error, a close or a connection lost under the call, and else as not yet open |
| `History.AcceptedIsWhatWasCalled` | Sources/libwebsockets/WebsocketClient.swift:505-574 | In every run exactly the calls made on the open client are accepted, in order: those of the application, the closes of the receive side and the pings and closes of the keepalive |
| `History.CloseIsNextCall` | Sources/libwebsockets/WebsocketClient.swift:438-449 | `close(reason:)` on an open client makes a Close with that reason the next accepted call; on another thread it schedules that call |
| `History.ClientEndsConnection` | Sources/libwebsockets/WebsocketClient.swift:880-897 | An established connection is ended by the client if and only if a Close was written, a write failed, or a callback found the client released |
| `History.FlagsAreEvents` | Sources/libwebsockets/WebsocketClient.swift:739-1018 | The boxes say what happened: connected if ESTABLISHED came, error if CONNECTION_ERROR came, a connection from the connect call to WSI_DESTROY, alive until release, the timeout once |
| `Accounting.CarriersOfFrames` | Sources/libwebsockets/WebsocketClient.swift:550-557 | However many frames a call becomes, they carry its promise exactly once |
| `CallOrder.AcceptedInCallOrder` | Sources/libwebsockets/WebsocketClient.swift:511-517 | In every run in which no call on the event loop overtakes calls from other threads, the promises of the accepted calls are a subsequence of those handed to `send`, and the calls still hopping are the last ones made |
| `CallOrder.CallsArriveInOrder` | Sources/libwebsockets/WebsocketClient.swift:511-517 | Calls on other threads reach the event loop unchanged and in the order in which they were made; those still hopping are the last ones |
| `Fragmentation.ChunkedIsStride` | Sources/libwebsockets/WebsocketTools.swift:22-26 | Chunk i is the slice the stride selects, only the last may be short, and the chunks concatenate to the data |
| `Fragmentation.FramesWithinLimit` | Sources/libwebsockets/WebsocketClient.swift:532-560 | Every frame of a data call has at most `maxFrameSize` bytes |
| `Fragmentation.FragmentationKeepsGrammar` | Sources/libwebsockets/WebsocketClient.swift:532-570 | The expanded queue is well formed exactly when the calls are, from any grammar state, with user-driven continuations and interleaved control frames |
| `Fragmentation.FragmentationKeepsMessages` | Sources/libwebsockets/WebsocketClient.swift:532-570 | The expanded queue carries the messages of the calls byte for byte, for every list of calls |
| `Fragmentation.WellFormedFramesAreCoherent` | Sources/libwebsockets/WebsocketClient.swift:861-877 | Frames that obey the grammar arrive as a coherent stream: first exactly when no message is open, one type per message |
| `WebsocketClients.WriteChunks` | Sources/libwebsockets/WebsocketClient.swift:546-557 | The loop of `send` yields the entries of the recursive definition: opcode on the first, `fin` and promise on the last |
| `MessageStream.GatherIsMessages` | Sources/libwebsockets/WebsocketClient.swift:794-837 | Accumulating fragment by fragment yields the messages defined by cutting the stream after every final fragment |
| `MessageStream.CutKeepsMessages` | Sources/libwebsockets/WebsocketClient.swift:751-766 | However fragments are cut into RECEIVE callbacks, the stream carries the same messages |
| `MessageStream.CutKeepsCoherence` | Sources/libwebsockets/WebsocketClient.swift:764-766 | Cutting neither breaks nor repairs the fragmentation rule |
| `Reassembly.ReassemblyExact` | Sources/libwebsockets/WebsocketClient.swift:772-838 | On coherent finished streams the messages that come out are those the stream carries if and only if every message of several fragments is within the limit |
| `Reassembly.OverflowDeliversTail` | Sources/libwebsockets/WebsocketClient.swift:804-810 | A stream on which the code delivers the tail of an oversized message |
| `Reassembly.OverflowMeansLoss` | Sources/libwebsockets/WebsocketClient.swift:804-810 | On coherent streams an overflow is exactly a loss of bytes |
| `Reassembly.NoLossMeansAgreement` | Sources/libwebsockets/WebsocketClient.swift:772-838 | While no byte is lost, output and held sequence are the messages and the message under way of the reference meaning |
| `Reassembly.BytesAreConserved` | Sources/libwebsockets/WebsocketClient.swift:772-838 | On every stream, delivered, held and discarded bytes add up to the bytes received |
| `Reassembly.SizeBound` | Sources/libwebsockets/WebsocketClient.swift:772-838 | On every stream the held sequence is within the limit, and a message above the limit comes out if and only if it arrived in one fragment |
| `Reassembly.OversizedFragmentComesOut` | Sources/libwebsockets/WebsocketClient.swift:773-778 | A stream on which a message above the limit comes out and nothing overflows |
| `Reassembly.OverflowIffUnfit` | Sources/libwebsockets/WebsocketClient.swift:798-810 | On coherent finished streams the limit is enforced if and only if some message of several fragments exceeds it |
| `Reassembly.CutIndependence` | Sources/libwebsockets/WebsocketClient.swift:773-837 | Within the limit, shortcut and accumulator give the same messages for any cuts, and nothing is held |
| `Receiving.SchedulingRefines` | Sources/libwebsockets/WebsocketClient.swift:768-838 | In every run two-stage scheduling delivers a prefix of what synchronous reassembly yields for the fragments shown, these are the first ones RECEIVE brought, and everything RECEIVE brought is delivered so once the tasks have run |
| `History.ReceivedIsWhatCame` | Sources/libwebsockets/WebsocketClient.swift:751-838 | The receive history is what happened: the fragments of the RECEIVE callbacks, the calls of `onFragment`, the calls of `onText` and `onBinary` |
| `Receiving.DeliversMessagesInOrder` | Sources/libwebsockets/WebsocketClient.swift:768-838 | Up to the first overflow, messages come out in the order of their final fragments, are the concatenation of their fragments, and follow their `onFragment` calls |
| `Receiving.ReceiveSizeBound` | Sources/libwebsockets/WebsocketClient.swift:798-837 | In every reachable state no more than `maxMessageSize` bytes are held and a larger message was delivered only if it came in one fragment; once the tasks have run, exactly if it did and decodes |
| `Receiving.SameBytesSameMessages` | Sources/libwebsockets/WebsocketClient.swift:773-837 | Two clients handed the same messages in different cuts deliver the same messages, refuse the same texts and hold nothing |
| `Violations.ViolationsRequestClose` | Sources/libwebsockets/WebsocketClient.swift:786-832 | An overflow or a refused text processed by an open client has left a close with its reason among the accepted calls, in every continuation |
| `Violations.OversizedMessagesRequestClose` | Sources/libwebsockets/WebsocketClient.swift:804-810 | Any message of several fragments above the limit processed by an open client has left a `messageTooLarge` close among the accepted calls, in every continuation |
| `CloseProtocol.CloseStatusIsFinal` | Sources/libwebsockets/WebsocketClient.swift:451-453 | The close status never changes once set, in every continuation |
| `CloseProtocol.CloseIsFinal` | Sources/libwebsockets/WebsocketClient.swift:438-472 | After the clearing step, in every continuation: status fixed, `onClose` once and with it, queue empty, no call accepted, nothing more popped |
| `CloseProtocol.NothingFollowsClose` | Sources/libwebsockets/WebsocketClient.swift:879-897 | A written Close is the last frame on the wire, in every continuation (section 5.5.1 of RFC 6455) |
| `CloseProtocol.SendsBehindClose` | Sources/libwebsockets/WebsocketClient.swift:451-463 | For every accepted close, written or not: no frame of a later call is written, its promise never succeeds, and it has failed as closed once the client is quiet; if the close was written it ends the wire |
| `CloseProtocol.CloseReason` | Sources/libwebsockets/WebsocketClient.swift:879-931 | The status and the argument of `onClose` come from the first close event of the run: local reason if written first, else peer code, else session end; `goingAway` only for a released client |
| `CloseProtocol.CloseIsReported` | Sources/libwebsockets/WebsocketClient.swift:910-931 | Once the peer closed or the session ended and the tasks have run, the status is set and `onClose` was called once with it |
| `History.ClosingsAreWhatCame` | Sources/libwebsockets/WebsocketClient.swift:879-931 | The close history is what happened: the close callbacks, the Close frames written, the calls of `onClose` |
| `CloseProtocol.ReleaseReason` | Sources/libwebsockets/WebsocketClient.swift:412-428 | In every continuation a released client keeps its status, else reports nothing if its connection failed, else `goingAway`, and calls `onClose` at most once, with that status |
| `CloseProtocol.ErrorIsFinal` | Sources/libwebsockets/WebsocketClient.swift:451-453 | A client whose connection failed has no close status and never calls `onClose`, in every continuation |
| `ConnectPromise.ConnectOnce` | Sources/libwebsockets/WebsocketClient.swift:335-400 | Under every interleaving of its six resolvers the connect promise is resolved at most once, succeeds only on an established connection, and is resolved if and only if it has left its box and is not on its way to be failed by `deinit` |
| `ConnectPromise.ConnectResolved` | Sources/libwebsockets/WebsocketClient.swift:335-350 | It has been resolved exactly once as soon as the timeout has run, or without a context as soon as the failing task has, unless the task of `deinit` has yet to fail it |
| `ConnectPromise.ConnectOutcomeIsFinal` | Sources/libwebsockets/WebsocketClient.swift:104-113 | Its outcome is final in every continuation |
| `ConnectPromise.OutcomeIsFirstDecision` | Sources/libwebsockets/WebsocketClient.swift:335-400 | The reports of the service thread are processed in order, and the outcome of the promise is the first decision: success for ESTABLISHED, failure for an error, a failed connect call, a missing context, the timeout or the release |
| `ConnectPromise.FirstReportDecides` | Sources/libwebsockets/WebsocketClient.swift:746-749 | Before the timeout and the release, once the tasks have run, the first report is the outcome: a connection error or a failed connect call has failed the promise, ESTABLISHED has fulfilled it |
| `PingPong.TimeoutsAreExact` | Sources/libwebsockets/WebsocketClient.swift:475-501 | In every run, read off its events: a tick times out if and only if an earlier tick pinged and neither a tick, a pong nor a call of the setter came since |
| `PingPong.PongsPreventTimeouts` | Sources/libwebsockets/WebsocketClient.swift:951-967 | If a pong or a call of the setter comes between every two ticks, no tick of the run times out |
| `PingPong.PongPreventsTimeout` | Sources/libwebsockets/WebsocketClient.swift:957 | From every state: after a pong no timeout is possible before the next tick |
| `PingPong.TickCalls` | Sources/libwebsockets/WebsocketClient.swift:487-492 | A tick that looks for the pong on an open client adds exactly one call and one frame: a Close with 1006 if the ping was left unanswered, else a Ping |
| `PingPong.PongsAreShown` | Sources/libwebsockets/WebsocketClient.swift:964-966 | `onPong` was or will be called once for every pong |
| `PingPong.KeepaliveGoesOn` | Sources/libwebsockets/WebsocketClient.swift:584-598 | From the call of the setter that starts it, in every run that does not stop it, a tick is alive |
| `PingPong.NoIntervalNoTick` | Sources/libwebsockets/WebsocketClient.swift:483-485 | Without an interval no new tick gets past its first look, in every continuation without one |
| `PingPong.TimeoutQueuesClose` | Sources/libwebsockets/WebsocketClient.swift:487-490 | The close requested by a timeout is the next accepted call, in every continuation, if and only if the client is open; otherwise the request leaves no trace |
| `PingPong.KeepaliveClosesConnection` | Sources/libwebsockets/WebsocketClient.swift:487-490 | In every run in which the application only calls a client it holds, a timeout gets its close into the queue to stay, unless the close status is already set or the connection is already gone |
| `PingPong.OneLiveTick` | Sources/libwebsockets/WebsocketClient.swift:580-606 | At most one tick is alive throughout a run if and only if the setter never schedules one while another is queued or running |
| `PingPong.TwoLiveTicks` | Sources/libwebsockets/WebsocketClient.swift:491-499 | A run of a connected client in which a call of the setter during a tick leaves one tick with its timer and one in the queue |
| `PingPong.TimeoutEndsKeepalive` | Sources/libwebsockets/WebsocketClient.swift:487-490 | After a timeout no tick is alive or happens in any continuation until the setter starts the keepalive again, if and only if the tick that timed out was the only one alive |
| `PingPong.TimeoutsEndKeepalive` | Sources/libwebsockets/WebsocketClient.swift:487-490 | So every timeout ends the keepalive in runs in which the setter never schedules a tick while another is queued or running |
| `ContextCallbacks.NoUseAfterRelease` | Sources/libwebsockets/WebsocketClient.swift:710-738 | For any number of clients and every interleaving no callback reads the pointer of a freed client and no marker is set on a destroyed connection |
| `ContextCallbacks.ReleasedMeansMarked` | Sources/libwebsockets/WebsocketClient.swift:412-434 | Every callback after the release of a client finds the closed marker |
| `SharedContext.ClientsAreReachable` | Sources/libwebsockets/WebsocketClient.swift:412-738 | For any number of clients on one context and every interleaving: no callback reads a freed client, and every client is in a state that its own transition system reaches, although callbacks are refused only through the marker |
| `SharedContext.StepOfClient` | Sources/libwebsockets/WebsocketClient.swift:710-738 | On a safe context the step of a client, with the client looked up through the marker, is its step in the transition system, and leaves every other client alone |
| `ContextCallbacks.WebsocketClientContext.PopEventLoopExecution` | Sources/libwebsockets/WebsocketClientContext.swift:256-261 | Takes the oldest closure, or none exactly if there is none |
| `ContextCallbacks.WebsocketClientContext.RunEventLoopExecutions` | Sources/libwebsockets/WebsocketClient.swift:714-716 | The loop at the top of every callback runs all waiting closures in order |
| `ContextCallbacks.WebsocketClientContext.GetWebsocketClient` | Sources/libwebsockets/WebsocketClient.swift:710-738 | What a callback begins with is the step of the lifetime machine; on a safe context it finds a client exactly if the client is alive |
| `ContextCallbacks.WebsocketClientContext.ReleaseClient` | Sources/libwebsockets/WebsocketClient.swift:420-426 | `deinit` leaves a marker closure if there is a connection, which is the step of the lifetime machine |
| `ContextCallbacks.WebsocketClientContext.RunFastServiceExecutions` | Sources/libwebsockets/WebsocketClientContext.swift:222-227 | When the loop ends, every closure ever scheduled has run once, in the order of scheduling |
| `ContextPool.PoolCreation` | Sources/libwebsockets/WebsocketClientContext.swift:14-65 | With any number of calls: one creator at a time, one assignment with `coreCount` contexts, flag set exactly while a pool exists or is being created, early return unreachable, index always in range |
| `ContextPool.PoolCanBeCreated` | Sources/libwebsockets/WebsocketClientContext.swift:48-63 | Whatever failed before, a call that starts when no pool exists and none is being created can create one, with `coreCount` contexts, and gets a context of it |
| `ContextPool.ServedIffPoolExists` | Sources/libwebsockets/WebsocketClientContext.swift:41-63 | A call is served in every schedule if and only if the pool exists when it starts |
| `ContextPool.RacingCallGetsNothing` | Sources/libwebsockets/WebsocketClientContext.swift:14-43 | A run in which a call gets no context while another creates the pool |
| `ContextPool.SelectionsTakeTurns` | Sources/libwebsockets/WebsocketClientContext.swift:24-39 | In every run after creation the selections go round in turn, whichever calls make them |
| `ContextPool.RoundRobinIsFair` | Sources/libwebsockets/WebsocketClientContext.swift:24-39 | Of the calls that select after creation: what they returned, with what they are about to return, is what was selected; of any k selections each of n contexts gets k/n rounded down or up; once they have returned, so do the contexts they returned |
| `ContextPool.CallsGetTheirSelections` | Sources/libwebsockets/WebsocketClientContext.swift:24-39 | Every call that selected gets the context it selected, and no call selects twice |
| `ContextPool.SharedContexts.NextShared` | Sources/libwebsockets/WebsocketClientContext.swift:24-39 | From an index in range it moves to the next one modulo the size of the pool, and to zero without contexts, and returns what is there |
| `ContextPool.SharedContexts.MakeContexts` | Sources/libwebsockets/WebsocketClientContext.swift:48-53 | Makes `coreCount` contexts exactly if every creation succeeds |
| `ContextPool.SharedContexts.Shared` | Sources/libwebsockets/WebsocketClientContext.swift:14-65 | One call alone: the next context of an existing pool; a new pool exactly if all contexts can be made; otherwise no pool and the flag reset |
| `FrameSequences.Append` | Sources/libwebsockets/WebsocketFrameSequence.swift:44-67 | Appending keeps the type, the count and the capacity consistent and adds the frame at the end of the contents |
| `FrameSequences.BufferGrowth` | Sources/libwebsockets/WebsocketFrameSequence.swift:36-67 | For every list of frames: contents are their concatenation, count its length, capacity enough and at most one buffer or twice the contents, each growth at least one buffer |
| `FrameSequences.SimpleAppendFrameSequence.constructor` | Sources/libwebsockets/WebsocketFrameSequence.swift:36-42 | A new sequence is empty with one buffer reserved |
| `FrameSequences.SimpleAppendFrameSequence.AppendFrame` | Sources/libwebsockets/WebsocketFrameSequence.swift:44-67 | The mutating append computes `Append` |
| `WebsocketClients.WebsocketClient.constructor` | Sources/libwebsockets/WebsocketClient.swift:335-350 | A new object stands for the initial state, with or without a context |
| `WebsocketClients.WebsocketClient.Closed` | Sources/libwebsockets/WebsocketClient.swift:55-73 | The chain of tests is: no connection, not connected yet, or closed for good |
| `WebsocketClients.WebsocketClient.SendNow` | Sources/libwebsockets/WebsocketClient.swift:519-574 | `send` on the event loop: with all four boxes open the frames join the queue and nothing is resolved; otherwise nothing is queued and the promise fails as closed or as not yet open |
| `WebsocketClients.WebsocketClient.CloseNow` | Sources/libwebsockets/WebsocketClient.swift:438-449 | `close(reason:)` on the event loop queues a close entry unless closed for good or not open |
| `WebsocketClients.WebsocketClient.FailPendingWrites` | Sources/libwebsockets/WebsocketClient.swift:461-471 | Third section: fails every promise of the taken entries, in order, and schedules `onClose` |
| `WebsocketClients.WebsocketClient.PingAndScheduleNextTimeoutTask` | Sources/libwebsockets/WebsocketClient.swift:475-501 | The three sections in a row are the whole tick: nothing, a close, or a ping and the next timer |
| `WebsocketClients.WebsocketClient.SetInterval` | Sources/libwebsockets/WebsocketClient.swift:584-605 | The two sections in a row: the interval is assigned, the timer cancelled, the flag cleared and a tick scheduled if there is an interval |
| `WebsocketClients.WebsocketClient.ReassembleFragment` | Sources/libwebsockets/WebsocketClient.swift:772-838 | The fragment task in place does one step of the reassembly on values |
| `WebsocketClients.WebsocketClient.DeliverAccumulated` | Sources/libwebsockets/WebsocketClient.swift:817-832 | The delivery task delivers, or refuses an undecodable text and asks for a close |
| `WebsocketClients.WebsocketClient.WriteNext` | Sources/libwebsockets/WebsocketClient.swift:857-897 | The rest of WRITEABLE: the return value is that of the write, or -1 for a Close; the promise succeeds on 0 or a Close and else fails; the connection stays open exactly on a zero return |
| `WebsocketClients.WebsocketClient.OnCallback` | Sources/libwebsockets/WebsocketClient.swift:740-1018 | Every callback does the step of the transition system, also for a released client |
| `WebsocketClients.WebsocketClient.OnServiceCall` | Sources/libwebsockets/WebsocketClient.swift:392-402 | The connect closure and the write call do the step of the transition system |
| `WebsocketClients.WebsocketClient.OnEventLoop` | Sources/libwebsockets/WebsocketClient.swift:451-501 | Every task, section and timer of the event loop does the step of the transition system |
| `WebsocketClients.WebsocketClient.OnSend` | Sources/libwebsockets/WebsocketClient.swift:505-574 | Both ways of calling `send` do the step of the transition system |
| `WebsocketClients.WebsocketClient.OnClose` | Sources/libwebsockets/WebsocketClient.swift:438-449 | Both ways of calling `close(reason:)` do the step of the transition system |
| `WebsocketClients.WebsocketClient.OnSetOrRelease` | Sources/libwebsockets/WebsocketClient.swift:412-434 | The sections of the setter and `deinit` do the step of the transition system |
| `WebsocketClients.WebsocketClient.Handle` | Sources/libwebsockets/WebsocketClient.swift:412-1018 | Any event, enabled or not, does the step of the transition system |
| `WebsocketClients.WebsocketClient.HandleAll` | Sources/libwebsockets/WebsocketClient.swift:412-1018 | Any list of events takes the object where the transition system goes |
| `WebsocketClients.Simulate` | Sources/libwebsockets/WebsocketClient.swift:335-1018 | A fresh object after any run is in the reachable state the transition system gives |

## Left out

- TLS, permessage-deflate, handshake headers, host and path strings, pointer conversions: foreign calls and plumbing.
- The write shim in `Sources/Clibwebsockets/src/lws_custom.c`: a write is a result of 0 or -1; its comparison of an `int` with a `size_t` is not modelled.
- Wall-clock time: ticks and timeouts are steps that happen at any time.
- UTF-8 decoding: an arbitrary predicate.
- Ping payloads and the payload given to `onPong`: `ws_write_ping` takes no data.
- Blocking and deadlock on `closeLock`, and races inside one `deinit`: it is a single step.
- The two loops that drain closures are modelled with the closures as identifiers; what a fast-service closure does is the connect call, which is a step of the client.
- The context's own `init` and `deinit`, `lws_service` and cancelling it, and `callWritable`: WRITEABLE may come at any time.
- Conversion between close codes and `WebsocketCloseStatus`, registration of callbacks, the case-insensitive dictionary, package manifests and the example: finite or easy.
- Liveness: no claim says that libwebsockets calls back or that a task is eventually run.
- ContextPool.SharedContexts.Shared: says what one call does alone; calls that race are the subject of `PoolCreation`, `ServedIffPoolExists` and `SelectionsTakeTurns`.
