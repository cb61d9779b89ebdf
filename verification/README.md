# GiraffeCloud tunnel protocol: a verified model

GiraffeCloud publishes local services under public domains. Many HTTP requests share one gRPC stream
per domain; bodies travel as numbered chunks; WebSocket traffic uses TCP tunnels made on demand. This
project models the in-memory protocol and bookkeeping behind that in Dafny and proves what it keeps
over all inputs, runs and interleavings.

`dafny verify dfyconfig.toml` checks everything.

## How the model is built

Concurrent protocols are step systems. A step is one atomic action of one goroutine: a check, a read, a
send, or one section under a lock. Where the receive loop keeps the stream's lock while it waits for room
in a channel, taking the lock and delivering are two steps, and between them no other section under that
lock is enabled for any request. Any enabled step may come next, timeouts and cancellations can come at
any time, and theorems speak of every reachable state (`IsRun` from the empty system). Fields
marked *history* record what happened and decide nothing. Code that changes objects in place is a
class whose methods are proved against the functions the step systems use, so that the lemmas about
the functions speak of the methods.

| files | what they model |
|---|---|
| `Messages`, `ResponseStream` | one request: the client's sending loop, the server's waiter and collector, the receive loop, the response channel |
| `ResponseSafety`, `Multiplex`, `ReceiveLoop` | any number of requests on one stream, with faults anywhere: safety, correlation, cancellation, when the loop panics |
| `ResponseCompletion`, `MultiplexCompletion` | fault-free runs: they end, in a state where every answered request has exactly its body, or in a jam |
| `SoloRuns`, `Jams`, `ResponseEnd` | when a stream jams and what that loses, answers that come too early, what the end of a pipe tells its reader |
| `StreamingLoops`, `TunnelStream` | the loops and the table of pending requests as written |
| `Upload` | request bodies in the other direction, as Start, Data and End messages |
| `Establishment`, `HybridRouter` | demand-driven TCP tunnels: waiters, wake-ups, the in-progress flag |
| `Pools`, `ConnectionManager`, `RoundRobin` | pools of tunnel connections: ownership, the cap, selection |
| `UsageLedger`, `UsageService`, `UsageTransactions`, `LedgerKeys` | traffic accounting from increment to database, and overlapping transactions on one row |
| `Quota`, `QuotaFlushes`, `StatusCache` | two caches: quota decisions, alone and while flushes write what they read; and which tunnels are enabled |
| `Backoff` | both reconnection loops |
| `Versions` | version ordering and the update flags |
| `TunnelTable`, `TunnelService` | the table of tunnels and the DNS monitor |
| `ChunkArithmetic`, `Decimals`, `Sequences`, `Subsequences` | cutting a body in memory; numerals and splitting; duplicates, removal and subsequences in sequences |

A body reader is an arbitrary sequence of results of `Read`: bytes (perhaps none) with no error, with
end of file, or with another error. A channel is its buffer, with the source's capacities of 1 and 250.

## Where the code and its promises differ

Each is proved; the exact condition is given where there is one.

- **A stream can jam without any fault.** The receive loop holds the stream's lock while it waits for room
  in a channel, and a regular request needs the lock to look its channel up after its first chunk, as an
  upload does after its body. If the channel is full before that, everything on the stream waits until
  the delivery timeout drops the chunk: `OnlyTheTimeoutEndsAJam`. `FitsIff` gives the exact condition: an
  answer can jam its stream if and only if it is more than two chunks to a regular request, or more than
  250 to an upload. In `JamLosesData`, for every regular answer of more than three chunks, the request
  then succeeds and closes a body that lacks the third. `QuiescentIsIdleOrJammed` shows that nothing else stops a fault-free stream.
- **A body whose end of file comes in a read of its own is never finished.** The sender marks the last
  chunk only if the read that returned its data also returned end of file. `StreamingCompletes` shows that
  the response pipe then holds the whole body but is closed exactly when this was so; otherwise the
  collector waits for its ten-minute timeout. `BodyIsNeverClosed` gives the run for every such body.
- **The end of a response pipe does not mean that the body is whole.** The pipe is closed cleanly however
  the collector ends (`TimeoutLooksLikeTheEnd`). `WholeByEnd` splits by what ended it: a complete response is
  whole exactly when no delivery was given up; after a failed write the body never is; after a timeout, an
  error or a closed channel it can be only if its last data did not come with the end of file, and
  `EndSaysNothing` has a run each way. So a body whose last data did come with it is whole exactly after a
  success with no delivery given up (`ProperBodyIsWholeIff`).
- **The receive loop can panic.** For a complete response or an error it looks a channel up, lets go of
  the lock, and later sends and closes without looking again. `PanicIff` gives the exact steps,
  `LoopCanPanic` a run without any cancellation, timeout or disconnection: the collector handles the
  error and cleans up first. `UndisturbedRunNeverPanics` shows the gap is the only cause.
- **An answer to an upload can be lost.** The upload looks its channel up only when its body is sent. The
  lookup fails exactly when a complete response or an error for the request came to its end before it,
  or the stream was cleaned up (`LookupFails`, in all runs). `EarlyAnswerIsLost` is a fault-free run with a
  complete answer; in `UploadErrorLosesAnswer` the client's error about a failed upload write throws away
  a chunked answer that has arrived up to its final chunk.
- **Overlapping flushes can lose traffic.** A flush reads a row and saves a sum, in a transaction at the
  database's default isolation. `ExactIff`: a row holds all that was committed to it exactly when, back from
  the last commit along what each query found, nothing positive was committed between a query and its
  commit. It never holds more.
- **The DNS monitor never enables anything.** Creating a tunnel does not store the DNS status the service
  chose, so the column's default applies and no row is ever pending: `MonitorNeverActs`.
- **Ports are checked against the caller's tunnels, not the owner's**, and the handler passes on the
  caller without a check: `UpdateKeepsPortsIff`, and the run of `OthersUpdateClashes`.
- **A usage record keeps the domain of its first increment.** Per tunnel the totals are exact. Per domain a
  step keeps them exactly when it is not an increment that counts something and finds its record under
  another domain: `DomainAccountsKeptIff`, with the run of `FirstDomainTakesAll`.
- **The rotation skips when its counter wraps**, unless the pool's size divides 2^64: `RotationIff`.
- **A slow refresh of the status cache can undo a later one** (`SlowRefreshWinsLate`). A write takes a
  domain's answer back in time exactly when a refresh of it that read a later table has been written:
  `GoesBackIff`.
- **A blocked user can be let through.** However checks overlap, a later answer is more permissive exactly when
  its query failed and the earlier one was not to allow, or the total fell below a threshold between the two
  queries that the answers come from (`RankFallsIff`). That has three causes, each with its run and its
  condition:
  - a failed query, with no fresh answer cached (`FailedQueryAllows`);
  - a slow check that stores an older reading last (`SlowCheckAllows`): answers come from queries in order
    exactly when checks store in the order of their queries (`OriginsInOrderIff`);
  - overlapping flushes that lower a row (`OverlapAllows`): with limit 100 and a warning at 95 percent, a row
    of 90 and flushes of 10 and 1, blocked at 100 and allowed at 91. `FallsIff` says when a commit lowers a
    row, and `SerialFlushesKeepRank` that without overlap a later query never allows more.

  Besides these, a new month starts a new total, and a query may find another limit: the plan has changed,
  or its own query failed and left the default.
- **The in-progress flag of an establishment can be left up.** The waiter that raises it can return without
  clearing it exactly when its wake-up was there or on its way as it did: `LeavesUpIff`, with the run of
  `FlagIsLeftUp`, in which the request to the client also fails to be sent. Until an announcement, an answer
  of the client or a waiter's timeout, the client is then not asked and no later waiter is woken:
  `StrandedUntilTimeout`.

## Model

| member | source | states |
|---|---|---|
| Messages.EmitCarriesData | internal/tunnel/grpc_client.go:1020-1143 | the chunks made from any sequence of reads carry exactly the body up to its end of file or error |
| Messages.EmitShape | internal/tunnel/grpc_client.go:1060-1100 | they belong to their request, are non-empty and numbered consecutively, and only the last message can end the response |
| Messages.FinalChunkIff | internal/tunnel/grpc_client.go:1062-1069 | a body that ends properly is closed by a final chunk exactly when its last data came together with the end of file |
| ResponseSafety.SentShape | internal/tunnel/grpc_client.go:989-1147 | at every moment of the sending loop, whatever stopped it, what was sent carries a prefix of the body and ends at most once, at its end |
| ResponseSafety.StepKeepsInv | internal/tunnel/grpc_chunked_streaming.go:531-693 | every step of any goroutine of a request, the client's error about a failed upload write included, keeps: script still owed, at most one late chunk, channel open iff registered and closed at most once, order kept from sender to pipe |
| ResponseSafety.PipeIsSafe | internal/tunnel/grpc_chunked_streaming.go:550-693 | the pipe holds the bodies of a subsequence of the request's own chunks, and a prefix of its body if no delivery timed out |
| Multiplex.StepIsLocal | internal/tunnel/grpc_service_helpers.go:236-253 | a step on one request is a step of its own machine; any other request sees its part of the stream, its channel and its pipe unchanged, and only whether the stream's lock is held |
| Multiplex.StepKeepsSysInv | internal/tunnel/grpc_service_helpers.go:107-254 | every step of the whole stream, opening and cleanup included, keeps every request's invariant and every message addressed to a known request |
| Multiplex.StreamingSafety | internal/tunnel/grpc_service_helpers.go:201-254 | in every reachable state with cancels, disconnects, timeouts and failed upload writes anywhere, each pipe holds an order-preserving subsequence of its own chunks, never another request's, and a prefix of the body when no delivery of its answer timed out |
| Multiplex.Correlation | internal/tunnel/grpc_service.go:639-672 | in every reachable state a channel is open exactly while registered and closed at most once; after the stream's cleanup none is registered and each is closed once |
| Multiplex.PromptCancellation | internal/tunnel/grpc_client.go:1026-1116 | once a request's cancel function has run, at most one more of its chunks is sent |
| Multiplex.PanicIff | internal/tunnel/grpc_service_helpers.go:216-235 | the receive loop panics in exactly these steps: sending a whole response, sending an error, or removing the entry after an error, when the entry went away since the lookup |
| Multiplex.LookupFails | internal/tunnel/grpc_chunked_streaming.go:732-741 | in all runs the lookup before collecting fails exactly when a complete response or an error has ended the entry, or the stream was cleaned up; with nothing given up, exactly when one of them lies in the channel and its entry is gone |
| ReceiveLoop.UndisturbedRunNeverPanics | internal/tunnel/grpc_service_helpers.go:201-235 | if nobody else removes the entry the loop has in hand, no run panics, whatever else happens |
| ReceiveLoop.LoopCanPanic | internal/tunnel/grpc_service_helpers.go:303-319 | a run of openings, goroutines' own steps and a failing local service, free of cancels, timeouts and disconnections, whose last step removes an error's entry and closes the channel the collector has closed |
| ResponseCompletion.StepKeepsClean | internal/tunnel/grpc_chunked_streaming.go:531-693 | a fault-free step loses nothing: everything sent is in the pipe, the channel, the loop's hand or on the stream, and the response ends only after its terminal message |
| ResponseCompletion.StuckMeansComplete | internal/tunnel/grpc_chunked_streaming.go:550-693 | a fault-free request outside a jam that can move no further has exactly its body in the pipe, closed exactly when the response was terminated, unless its early answer was lost |
| ResponseCompletion.RoomOrJam | internal/tunnel/grpc_service_helpers.go:236-253 | while the loop holds the lock for a request's message, the message can be sent, or a goroutine that needs no lock can make room, or the request is jammed |
| MultiplexCompletion.QuiescentIsIdleOrJammed | internal/tunnel/grpc_service_helpers.go:236-253 | when a fault-free stream can move no further, the loop is idle and the stream empty if and only if there is no jam: a chunk in hand, the lock held, the channel full, its reader yet to look it up |
| MultiplexCompletion.StreamingCompletes | internal/tunnel/grpc_client.go:1020-1143 | end to end, for any number of interleaved requests and every split into reads: when nothing can move and there is no jam, each answered request's pipe holds exactly its body and is closed iff the last data came with end of file or the response was whole; the exception is an upload that lost an early complete answer |
| MultiplexCompletion.FittingAnswersNeverJam | internal/tunnel/grpc_service_helpers.go:236-253 | with downloads of any length, regular answers of at most two chunks, uploads answered with at most 250, and whole responses, no fault-free run of the whole stream jams |
| MultiplexCompletion.OnlyTheTimeoutEndsAJam | internal/tunnel/grpc_service_helpers.go:238-252 | from a jam in any reachable state, no step of any goroutine but the delivery timeout leads out, and it gives up the chunk |
| MultiplexCompletion.ProgressIsBounded | internal/tunnel/grpc_chunked_streaming.go:484-729 | from any reachable state a run without faults or new requests has at most a number of steps known in advance |
| MultiplexCompletion.ProgressReachesQuiescence | internal/tunnel/grpc_chunked_streaming.go:550-693 | from every fault-free state the goroutines alone reach a state where nothing can move |
| MultiplexCompletion.EveryCleanRunEnds | internal/tunnel/grpc_chunked_streaming.go:550-693 | every fault-free run extends to one where nothing can move; there the stream is jammed, or every answered request is served or has lost its early answer |
| Jams.UnfittingAnswerJams | internal/tunnel/grpc_service_helpers.go:488-500 | every regular answer of more than two chunks, and every upload answered with more than 250, has a fault-free run into a jam |
| Jams.FitsIff | internal/tunnel/grpc_chunked_streaming.go:732-741 | the exact condition: no fault-free run of a request alone jams if and only if its answer goes to a download, is whole, or fits before the lookup |
| Jams.JamLosesData | internal/tunnel/grpc_service_helpers.go:238-246 | for every regular answer of more than three chunks whose last data comes with the end of file: a fault-free run into a jam, its delivery timeout, and a fault-free run from there, after which the request has succeeded and its closed pipe holds all chunks but the third |
| Jams.EarlyAnswerIsLost | internal/tunnel/grpc_chunked_streaming.go:441-447 | a fault-free run, for every content, in which an upload loses a complete answer that came before its lookup |
| Jams.UploadErrorLosesAnswer | internal/tunnel/grpc_client.go:768-785 | a run in which the error about a failed upload write ends the entry, and a chunked answer complete in the channel is lost |
| Jams.BodyIsNeverClosed | internal/tunnel/grpc_chunked_streaming.go:550-693 | for every body whose end of file comes in a read of its own, a fault-free run after which nothing can move: the whole body is in the pipe, and the pipe is open |
| Jams.SeparateEofIsNeverClosed | internal/tunnel/grpc_client.go:1062-1069 | the same for one chunk followed by an empty read with the end of file |
| ResponseEnd.PipeIsWholeIff | internal/tunnel/grpc_chunked_streaming.go:556-692 | the pipe holds the whole body exactly when as many chunks were written as the answer has |
| ResponseEnd.SuccessIsWholeIff | internal/tunnel/grpc_chunked_streaming.go:660-692 | a success means the whole body exactly when no delivery of the answer was given up |
| ResponseEnd.ClosedIsWholeIff | internal/tunnel/grpc_chunked_streaming.go:750-765 | in every reachable state, for the reader of a closed pipe: when it has the whole body, after a success and after any other end |
| ResponseEnd.WholeByEnd | internal/tunnel/grpc_chunked_streaming.go:550-693 | for each cause of the end, whether the body is whole: complete, iff nothing was given up; failed write, never; timeout, error or closed channel, only if the last data did not come with the end of file, and then iff all chunks were written |
| ResponseEnd.ProperBodyIsWholeIff | internal/tunnel/grpc_chunked_streaming.go:550-693 | a body whose last data came with the end of file is whole in a closed pipe if and only if the response succeeded and no delivery was given up |
| ResponseEnd.TimeoutIsWholeIff | internal/tunnel/grpc_chunked_streaming.go:550-570 | a collector that times out while registered has the whole body iff nothing was given up, all of the answer was sent, and none of it is on its way |
| ResponseEnd.EndSaysNothing | internal/tunnel/grpc_chunked_streaming.go:550-693 | after an error, a closed channel or a timeout, a run in which the body is whole and one in which it is not |
| ResponseEnd.TimeoutLooksLikeTheEnd | internal/tunnel/grpc_chunked_streaming.go:750-765 | a fault-free run, the timeout, and a fault-free run: the pipe is closed cleanly in the middle of the body |
| StreamingLoops.StreamResponseInChunksWithContext | internal/tunnel/grpc_client.go:989-1147 | the loop as written sends a prefix of the body's chunks, perhaps cut short by one error message, and exactly the chunks when no check fires and sends succeed |
| StreamingLoops.CollectLoop | internal/tunnel/grpc_chunked_streaming.go:550-693 | over any turns of messages, timeouts and failing pipe writes, the loop writes the bodies up to the terminal message, error, timeout or failed write, takes the metadata from the first, and succeeds iff the turns complete the response |
| StreamingLoops.CollectChunkedResponseNoSend | internal/tunnel/grpc_chunked_streaming.go:732-876 | a first chunk handed over directly gives the same pipe, metadata and outcome as one left at the head of the queue |
| StreamingLoops.CollectedScript | internal/tunnel/grpc_chunked_streaming.go:556-692 | round trip of the two loops: what is emitted for a body is collected back to that body, and completes iff its last data came with end of file |
| TunnelStream.Stream.Register | internal/tunnel/grpc_service_helpers.go:466-480 | a new open channel is registered, over any entry the id may have, and the other entries are unchanged |
| TunnelStream.Stream.Release | internal/tunnel/grpc_service_helpers.go:466-531 | a waiter that gives up removes and closes its channel if and only if the entry is still its own |
| TunnelStream.Stream.DeliverChunk | internal/tunnel/grpc_service_helpers.go:236-253 | a chunk is appended exactly when the channel looked up is still the registered one, there is room and the delivery does not time out |
| TunnelStream.Stream.DeliverWhole | internal/tunnel/grpc_service_helpers.go:216-235 | it panics exactly when the channel was closed since the lookup; otherwise the response is appended or given up, its entry removed and the channel closed once, as in the step system |
| TunnelStream.Stream.SendError | internal/tunnel/grpc_service_helpers.go:303-313 | an error is sent without the lock and without a second look: it panics exactly when the channel has been closed |
| TunnelStream.Stream.RemoveFailed | internal/tunnel/grpc_service_helpers.go:315-319 | the entry goes in any case, and closing the channel panics exactly when it has been closed |
| TunnelStream.Stream.CleanupTunnelStreamState | internal/tunnel/grpc_service.go:639-672 | every pending channel is closed exactly once and the table is empty afterwards |
| Upload.ChunksFit | internal/tunnel/grpc_chunked_streaming.go:366-419 | no upload chunk is empty or larger than the default chunk size |
| Upload.HandleLargeFileUploadWithStreaming | internal/tunnel/grpc_chunked_streaming.go:346-441 | the sending loop puts exactly the start, data and end messages of the body on the stream, or the prefix that the stream accepted |
| Upload.SessionTable.HandleUploadStart | internal/tunnel/grpc_client.go:711-765 | a valid start opens a session with an empty pipe; no other upload changes |
| Upload.SessionTable.HandleUploadChunk | internal/tunnel/grpc_client.go:768-784 | data is appended to the pipe of a live session and to no other; it fails only when the reader is gone |
| Upload.SessionTable.HandleUploadEnd | internal/tunnel/grpc_client.go:787-796 | the session ends and its pipe is closed; no other upload changes |
| Upload.SessionTable.Run | internal/tunnel/grpc_client.go:702-796 | after any log of events the table holds, for each upload, what the upload's events alone determine |
| Upload.UploadSafety | internal/tunnel/grpc_client.go:702-796 | under every interleaving a session is in the table exactly from its start to its end and its pipe holds what arrived of its own body |
| Upload.UploadRoundTrip | internal/tunnel/grpc_chunked_streaming.go:346-441 | an upload that arrives whole leaves no session and a closed pipe with exactly its body, unless the local request stopped reading |
| Upload.UploadsAreIndependent | internal/tunnel/grpc_client.go:702-796 | removing all other uploads' events from the log changes nothing for this one |
| Establishment.WakeReachesAll | internal/tunnel/hybrid_router.go:826-843 | the wake section gives a token to every registered waiter of the domain and changes nobody else |
| Establishment.NoLostWakeup | internal/tunnel/hybrid_router.go:701-762 | in every interleaving of lock sections, those of failed answers included, a waiter that still waits has its one token buffered exactly when a wake section ran since it registered |
| Establishment.SuccessMeansWoken | internal/tunnel/hybrid_router.go:743-762 | a waiter returns true only if a wake section ran while it was registered |
| Establishment.SingleFlight | internal/tunnel/hybrid_router.go:718-823 | per domain, goroutines started equal the clears that found the flag set (a failed answer's, lines 166-176, among them) plus one if it is set; the table holds each waiter exactly once from registration to removal and no empty list |
| Establishment.LeavesUpIff | internal/tunnel/hybrid_router.go:718-762 | in every reachable state, the waiter about to raise the flag can return and leave it up if and only if it has a token or an announcement has cleared the flag and not yet woken anyone; otherwise it waits until it clears the flag or somebody else does |
| Establishment.FlagIsLeftUp | internal/tunnel/hybrid_router.go:765-796 | a run that ends with the flag up, no waiter, and nobody asking, announcing or waking |
| Establishment.StrandedUntilTimeout | internal/tunnel/hybrid_router.go:718-741 | with the flag left up, no goroutine is started and no later waiter woken until an announcement, an answer of the client or a waiter's timeout |
| HybridRouter.Router.AddPending | internal/tunnel/hybrid_router.go:702-716 | the waiter is appended to its domain's list without a token |
| HybridRouter.Router.ClaimEstablishment | internal/tunnel/hybrid_router.go:718-741 | only the caller that finds the flag down raises it and starts a goroutine |
| HybridRouter.Router.ClearInProgress | internal/tunnel/hybrid_router.go:751-759 | the flag of that domain is down, and no other changes |
| HybridRouter.Router.RemovePendingConnection | internal/tunnel/hybrid_router.go:799-816 | the first entry with the id is cut out in place, and an emptied domain is dropped |
| HybridRouter.Router.WakePending | internal/tunnel/hybrid_router.go:826-843 | everybody listed for the domain has a token, and no other waiter is touched |
| Pools.StepKeepsInv | internal/tunnel/connection_manager.go:204-364 | every operation keeps: each connection given is in exactly one place, once, and no pool of WebSocket tunnels exceeds 25 |
| Pools.Conservation | internal/tunnel/connection_manager.go:126-172 | after any sequence of operations every connection given is in exactly one pool, closed, or handed over unclosed |
| Pools.RemoveMoves | internal/tunnel/connection_manager.go:291-364 | removing or taking a connection moves that connection and no other |
| Pools.DeletedOnlyWhenEmpty | internal/tunnel/connection_manager.go:261-364 | in any state, when an operation makes a domain's entry disappear, every connection of its pools is closed or handed over |
| ConnectionManager.TunnelConnectionPool.GetConnection | internal/tunnel/connection_manager.go:103-123 | the connection after the last one chosen, by the wrapping counter; nothing from an empty pool; nothing, and a cleanup started, when the one chosen has no socket |
| ConnectionManager.TunnelConnectionPool.RemoveConnection | internal/tunnel/connection_manager.go:126-155 | the in-place deletion removes the first occurrence, keeps the order of the rest, and tells whether it was there |
| ConnectionManager.TunnelConnectionPool.CleanupDeadConnections | internal/tunnel/connection_manager.go:71-89 | exactly the healthy connections stay, in order, and exactly the others are closed |
| ConnectionManager.Connections.AddConnection | internal/tunnel/connection_manager.go:204-247 | the object's new state is the specification's: created entry, appended connection, or closed over the limit |
| ConnectionManager.Connections.RemoveConnection | internal/tunnel/connection_manager.go:261-288 | the domain goes only when both pools are empty |
| ConnectionManager.Connections.RemoveSpecificHTTPConnection | internal/tunnel/connection_manager.go:291-313 | the connection leaves its HTTP pool closed, and an emptied domain goes |
| ConnectionManager.Connections.RemoveSpecificWebSocketConnection | internal/tunnel/connection_manager.go:316-338 | the connection leaves its WebSocket pool closed, and an emptied domain goes |
| ConnectionManager.Connections.RemoveSpecificWebSocketConnectionWithoutClosing | internal/tunnel/connection_manager.go:342-364 | the connection leaves its WebSocket pool unclosed, and an emptied domain goes |
| ConnectionManager.Connections.CleanupDeadConnections | internal/tunnel/connection_manager.go:516-533 | in whatever order the domains are visited, each loses exactly its unhealthy HTTP connections and stays |
| ConnectionManager.Connections.CleanupPool | internal/tunnel/connection_manager.go:71-89 | one pool of one domain loses and closes exactly its unhealthy connections, as when a cleanup is started by a selection |
| ConnectionManager.Connections.Close | internal/tunnel/connection_manager.go:547-558 | in whatever order, every connection of every pool is closed and no domain is left |
| RoundRobin.HitsClosedForm | internal/tunnel/connection_manager.go:103-123 | how often each position is chosen in a window of calls, as a difference of quotients |
| RoundRobin.Fairness | internal/tunnel/connection_manager.go:103-123 | over any window without a wrap two connections' counts differ by at most one, and k·n calls choose each exactly k times |
| RoundRobin.RotationIff | internal/tunnel/connection_manager.go:103-123 | a call moves on by one position exactly when the counter does not wrap or the size divides 2^64 |
| UsageLedger.StepConserves | internal/service/usage_service.go:77-114 | an increment, a snapshot or a batch, committed or failed, adds to the accounts exactly what was incremented |
| UsageLedger.Conservation | internal/service/usage_service.go:134-212 | in every reachable state, for each day, user, tunnel and counter: initial plus incremented equals memory plus in flight plus database plus dropped |
| UsageLedger.NeverOverCounts | internal/service/usage_service.go:134-212 | with non-negative increments the database never holds more than was counted |
| UsageLedger.ExactWhenNothingFails | internal/service/usage_service.go:134-159 | when every batch commits and all snapshots have landed, the database lacks only what is in memory |
| UsageLedger.RowsStayUnique | internal/service/usage_service.go:175-209 | overlapping flushes never make two rows for one day, user, tunnel and domain |
| UsageLedger.DomainAccountsKeptIff | internal/service/usage_service.go:87-95 | a step keeps the accounts of every day, user, tunnel and domain if and only if it is no increment that counts something and finds its record under another domain |
| UsageLedger.DomainConservation | internal/service/usage_service.go:77-212 | conservation domain by domain over every run without such an increment |
| UsageLedger.OneDomainStays | internal/service/usage_service.go:87-92 | a tunnel whose traffic is all under one domain has all its rows under that domain |
| UsageLedger.FirstDomainTakesAll | internal/service/usage_service.go:87-92 | otherwise a run books the second domain's traffic under the first |
| UsageTransactions.NeverOverCounts | internal/service/usage_service.go:162-212 | however transactions on a row overlap, with non-negative counts it never holds more than was committed to it |
| UsageTransactions.ExactIff | internal/service/usage_service.go:175-197 | with non-negative counts, a row holds all that was committed to it if and only if, back from the last commit along the queries, nothing positive was committed between a query and its commit |
| UsageTransactions.ExactIffSerial | internal/service/usage_service.go:175-197 | with positive counts, a row holds all that was committed to it if and only if no transaction committed between the query and the commit of another |
| UsageTransactions.FallsIff | internal/service/usage_service.go:175-197 | a commit lowers a row if and only if it counts less than the row has grown by since its query |
| UsageTransactions.SerialRowNeverFalls | internal/service/usage_service.go:175-197 | between any two states of a run whose commits are serial and non-negative, the row does not fall |
| UsageTransactions.OverlapLosesACount | internal/service/usage_service.go:175-197 | two flushes that both query before either saves: both commit, the first one's count can be read in between, and is then gone |
| UsageService.UsageService.Increment | internal/service/usage_service.go:77-102 | the record of the day, user and tunnel, made on first use, grows by the increment; no other record changes |
| UsageService.UsageService.SnapshotAndReset | internal/service/usage_service.go:104-114 | every record is copied out exactly once, in some order, and the table is empty |
| UsageService.UsageService.ProcessBatch | internal/service/usage_service.go:162-212 | wherever an operation of the transaction fails, the rows change by the whole batch or not at all |
| UsageService.UsageService.FlushToDB | internal/service/usage_service.go:134-159 | the flush is a snapshot and its batches of 1000, up to the first that fails, which loses itself and the rest |
| UsageService.DrainedIsARun | internal/service/usage_service.go:134-159 | so a flush is a run of the ledger, and the conservation theorems apply to it |
| LedgerKeys.FmtUint32 | internal/service/usage_service.go:117-130 | the backwards-filled ten-byte buffer gives the shortest decimal numeral of every uint32, and ten bytes suffice |
| LedgerKeys.MakeKey | internal/service/usage_service.go:73-75 | the key is the day, the user's and the tunnel's numerals, joined by colons |
| LedgerKeys.KeyInjective | internal/service/usage_service.go:73-75 | different days, users or tunnels have different keys |
| Quota.QuotaService.SumRows | internal/service/quota_service.go:101-104 | the loop sums bytes in and out over all rows |
| Quota.QuotaService.CheckUser | internal/service/quota_service.go:59-130 | the cached answer while it is younger than 30 s, else a decision from the rows, stored; fail-open and not stored on a query error |
| Quota.QuotaService.Prune | internal/service/quota_service.go:116-126 | exactly the entries older than five minutes go |
| Quota.AnswersAreRecent | internal/service/quota_service.go:66-73 | however checks overlap, an answer that is not a failed query's is computed from a total that this check read, or another of the user that stored it less than 30 s before |
| Quota.NeverMorePermissive | internal/service/quota_service.go:59-130 | totals and ranks never fall between two computed answers to a user, on two hypotheses: no query of the user reads less than an earlier one under one limit, and the checks store in the order of their queries |
| Quota.RankFallsIff | internal/service/quota_service.go:66-98 | however checks overlap, one answer to a user is more permissive than another if and only if its query failed and the other was not to allow, or both were computed and the total fell below a threshold between the two queries they come from |
| Quota.OriginsInOrderIff | internal/service/quota_service.go:66-73 | later answers to a user never come from earlier queries if and only if the user's checks store in the order of their queries |
| Quota.CallIsItsEvents | internal/service/quota_service.go:59-130 | a check that no other comes between answers, and leaves the cache, as the method does |
| QuotaFlushes.SerialFlushesKeepRank | internal/service/quota_service.go:91-112 | while the flushes of a month do not overlap on a row, an answer is no more permissive than one that comes from an earlier query |
| QuotaFlushes.OverlapAllows | internal/service/quota_service.go:91-112 | a joined run of two overlapping flushes and two successful checks 30 s apart: blocked, then allowed, for all amounts between which the row falls from the limit to below the warning threshold |
| Quota.FailedQueryAllows | internal/service/quota_service.go:95-98 | a log of two checks in which a failed query lets a blocked user through |
| Quota.SlowCheckAllows | internal/service/quota_service.go:66-112 | two overlapping checks of a user whose usage grows: the one that read less stores last, and a blocked user is allowed, also from the cache |
| StatusCache.EnabledWasTrueOnce | internal/tunnel/tunnel_status_cache.go:60-142 | however refreshes overlap each other and changes of the table, a domain called enabled was enabled in the table its answer goes back to |
| StatusCache.GoesBackIff | internal/tunnel/tunnel_status_cache.go:100-142 | in all runs a write takes a domain's answer back in time if and only if a refresh of that domain that read a later table has already been written |
| StatusCache.SlowRefreshWinsLate | internal/tunnel/tunnel_status_cache.go:100-120 | a run in which a full refresh overwrites the newer result of a single one, and a disabled domain is called enabled |
| StatusCache.TunnelStatusCache.RefreshAll | internal/tunnel/tunnel_status_cache.go:100-120 | the swapped-in cache holds exactly the active domains, all enabled |
| StatusCache.TunnelStatusCache.RefreshSingle | internal/tunnel/tunnel_status_cache.go:123-142 | one domain is set, or deleted when the lookup failed; the others stay |
| Backoff.Reconnect | internal/tunnel/grpc_client.go:1352-1431 | the loop sleeps once per retryable failure by the circuit-breaker schedule, never exceeds a positive attempt limit, and ends for the first reason met |
| Backoff.CapNeverBinds | internal/tunnel/grpc_client.go:1404-1411 | each sleep is 1.5^r seconds exactly, below 30 s, or the five minutes of the breaker: the cap never shortens one |
| Backoff.TotalSleepClosedForm | internal/tunnel/grpc_client.go:109-122 | after 10q+r failures in a row (r at most 9) the total sleep is q·374886718750 ns plus the first r sleeps, which sum to 2(1.5^r - 1) s |
| Backoff.ConnectWithRetry | internal/tunnel/tunnel.go:233-303 | no wait before the first attempt and one before each other; a positive limit bounds the attempts; an authentication error ends the loop at once |
| Backoff.DelayBounds | internal/tunnel/tunnel.go:1172-1188 | for any positive factor f and every jitter sequence, after n non-maintenance failures the delay is at most min(1.1 Max, (1.1 f)^n base) and at least min(0.9 Max, (0.9 f)^n base), or, when 0.9 f is below 1, min((0.9 f)^(n-1) 0.9 Max, (0.9 f)^n base); also after a maintenance answer |
| Backoff.DefaultDelayBounds | internal/tunnel/tunnel.go:66-76 | with the default factor: between 1.8^n and 2.2^n initial delays |
| Versions.ParseVersionPart | internal/version/version.go:360-377 | the number a part starts with, 0 if there is none or it does not fit an int |
| Versions.CompareParts | internal/version/version.go:270-303 | padding and comparing part by part gives the recursive comparison of the numbers |
| Versions.CompareVersions | internal/version/version.go:181-303 | the sequence of early returns decides exactly as the comparison function |
| Versions.PlainOrder | internal/version/version.go:270-303 | on plain releases the result is exactly zero-padded lexicographic order |
| Versions.PlainIsTotalPreorder | internal/version/version.go:181-303 | on plain releases: reflexive, total, antisymmetric up to equality, transitive |
| Versions.SemanticVersionOrder | internal/version/version.go:181-303 | on X.Y.Z with parts that fit an int: the order of item 11 of Semantic Versioning 2.0.0 |
| Versions.TestBuildIsOlder | internal/version/version.go:243-268 | a test build with a commit is older than every plain release, in both argument orders |
| Versions.RequiredImpliesAvailable | internal/service/version_service.go:82-105 | a configuration never demands an update that is not there, forced or not, if and only if its minimum is exempt or not above its latest version |
| TunnelTable.StepKeepsInv | internal/service/tunnel_service.go:99-292 | each operation keeps the table's invariants |
| TunnelTable.TableInvariants | internal/service/tunnel_service.go:99-191 | over all runs of creations, updates by anyone, deletions and monitor rounds: at most one base-domain tunnel per user and it is the generated one, distinct unreserved domains, enabled custom domains once resolved to the server; and distinct ports per user if updates are made by owners |
| TunnelTable.UpdateKeepsPortsIff | internal/service/tunnel_service.go:241-260 | an accepted update keeps ports distinct exactly when the new port is free among the owner's other tunnels |
| TunnelTable.OthersUpdateClashes | internal/api/handlers/tunnel.go:218-241 | a run from the empty table in which another user's accepted update gives two tunnels of one owner the same port |
| TunnelTable.AlwaysVerified | internal/repository/tunnel_repository.go:36-44 | no row of any run is ever pending |
| TunnelTable.MonitorNeverActs | internal/tasks/dns_monitor.go:80-139 | in every reachable state a monitor round changes nothing, whatever the lookups find |
| TunnelService.Tunnels.CreateTunnel | internal/service/tunnel_service.go:99-191 | outcome and new table are the specification's, with each refusal in the code's order |
| TunnelService.Tunnels.UpdateTunnel | internal/service/tunnel_service.go:226-292 | outcome and new table are the specification's: port search over the other tunnels, verification before enabling |
| TunnelService.Tunnels.DeleteTunnel | internal/service/tunnel_service.go:204-223 | exactly the row goes |
| TunnelService.Tunnels.VerifyTunnels | internal/tasks/dns_monitor.go:80-139 | in whatever order, exactly the pending rows whose lookup finds the server are enabled |
| ChunkArithmetic.NumChunks | internal/tunnel/grpc_chunked_streaming.go:124-127 | the quotient rounded up, and one for an empty body |
| ChunkArithmetic.StreamResponseInChunks | internal/tunnel/grpc_chunked_streaming.go:99-179 | the chunks join to the data, are in bounds and full but for the last, are numbered from 1, with exactly one final, the last, and headers on the first |

## Left out

- Sockets, TLS, gRPC and protobuf encoding, HTTP parsing and `io.Copy` loops: an ordered stream of abstract messages stands for them.
- Uniqueness of request ids made from timestamps: ids are distinct by assumption.
- A collector's exit, and the receive loop's removal, take whatever channel is registered under the request id; with distinct ids that is its own (`Own` in `TunnelStream`).
- The metadata wait of 60 seconds between collector and caller, and the writer's blocking on a pipe nobody reads: a write to the pipe succeeds, fails, or is yet to come.
- Writer preference of the stream's read-write lock, and how long a section waits for it: a section runs when the lock is free.
- Partial writes to a pipe whose reader leaves during a write: a write succeeds whole or fails.
- Server-side handlers for upload messages sent by a client: no client of this repository sends them.
- Which stream is registered for a domain when a client reconnects, and closing of the stream itself: a run is about one stream.
- Exact response-byte accounting across the gRPC paths, where the same bytes can be counted more than once: the ledger starts at the increment.
- 64-bit overflow of byte counters, in the ledger and in quota sums; counters are unbounded integers.
- UsageLedger.ExactWhenNothingFails: a batch is one step, so transactions that overlap on a row are left to `UsageTransactions`, which says exactly when each counts in full; there a snapshot's one record for a row is followed through one counter.
- The triggers of a background flush (record count, time since the last flush): a flush may start at any moment.
- Lock order in the connection manager (two methods take its locks in opposite orders): each public method is one step, and its health probe is an oracle naming the healthy connections.
- Connection types other than the two constants, port and owner bookkeeping of a domain's pools, and the read-only queries of the manager.
- Exclusive hand-out of a WebSocket tunnel across requests: choosing and taking out are two calls, made elsewhere.
- Backoff.DelayBounds: durations are reals, so truncation to nanoseconds is not modelled.
- A stop signal during a sleep of the reconnection loops: it is seen before the next attempt instead.
- Symmetry of the version comparison on dev and test builds, which it does not have: two different test builds are each older than the other.
- Pre-releases with other names, such as `-beta.`: they are compared by their numbers like plain releases, so Semantic Versioning's rule for pre-releases does not hold of them.
- Defaults used when no version configuration is stored, and the release metadata in the answer.
- Quota.RankFallsIff: the warning threshold is an exact product of reals, not a rounded floating-point one; choosing a plan's limit is a parameter of the query.
- Concurrent creations and updates of tunnels: operations on the table follow each other.
- The words and hash in generated subdomains: any function from users to names stands for them. Tokens, client addresses and Caddy routes do not appear.
- Singleton locking, service installation, self-update, web UI, handlers, middleware, generated database code, logging and telemetry.
