# Loon, verified

Loon is a tunnel protocol: a Go server forwards HTTP requests over one websocket connection, and a
C++ client answers each of them with a header and numbered chunks. This project models the two
protocol machines, joins them by a first-in first-out channel in each direction, and proves what
they guarantee in every run. It also covers the shared clients that multiplex one client, the locks
of the client, and the algorithms around them.

`dafny verify dfyconfig.toml` checks everything.

## How it is organised

| files | part |
|---|---|
| `Wire`, `Chunking`, `History` | messages, cutting content into chunks, the protocol's rules stated on the record of a connection |
| `Server`, `ServerInvariant`, `ServerRuns`, `ServerTheorems`, `ServerDelivery`, `ServerEffects`, `ServerTiming`, `ServerClock` | the server's protocol loop on values, what holds in every run of it, what each turn does exactly, and when |
| `ServerLoop`, `Forwarding` | the same handlers on mutable request objects, and the HTTP handler that forwards a response |
| `Handler`, `HandlerSteps`, `HandlerRuns`, `HandlerTheorems`, `HandlerProgress`, `HandlerStops`, `HandlerObject` | a request handler of the client: the serve loop, cut at every release of its lock, against enqueue, cancel and graceful exit |
| `Client`, `ClientHandlers`, `ClientInvariant`, `ClientRuns`, `ClientClosing`, `ClientObject` | one connection of the client with any number of handlers |
| `Responses`, `Connection`, `ConnectionTheorems`, `Completion`, `Confirmed`, `ConnectionStops`, `ConnectionCalls`, `Abandoned`, `Unanswered` | client and server together: what is refused, what arrives, when a request ends and is reported, what closing, registering and unregistering lead to, and which requests never end |
| `SharedClient`, `SharedClientRuns`, `SharedClientTheorems`, `SharedClientEffects`, `SharedClientObject`, `SharedCallbacks` | shared clients |
| `Locks` | the order of the mutexes and what they guard: no deadlock and no race |
| `RequestLimit`, `Reconnect`, `Base64`, `Paths`, `Accept` | request limiter, reconnect delays, base64 and content URLs, Accept headers |

The source updates its objects in place, so each part exists twice: as functions from state to state,
about which the guarantees are proved for all runs, and as classes whose methods are proved to do
exactly what those functions say. A run is any sequence of inputs; concurrency is a choice of the
next step. Panics of the Go code are a status of the server that is proved unreachable; assertions,
exceptions and protocol errors of the C++ code are recorded as faults or flags.

## What turned out to be false

* **A request that is closed while it is still queued costs the connection.** When the server closes a
  request that its handler has not begun to serve, the client sends a `CloseResponse` without a header
  (`client/src/request_handler.cpp:226-238`). `api/specification.md:370` allows that, but the server
  rejects it (`pkg/server/client.go:903-907`). The model follows the code.
  `ConnectionTheorems.ClosedWhileQueuedIsRefused` is a run in which this happens, and
  `ConnectionTheorems.RefusedExactlyWhenDropped` says that a message is refused if and only if its
  request was dropped from the queue of its handler.
* **A request left in the queue of a handler that exits costs the connection too.** Unregistering content
  (`client/src/client.cpp:350-355`) ends the serve loop without a look at its queue
  (`client/src/request_handler.cpp:103-106`), and nobody answers those requests any more: the server
  closes each of them after its timeout, and after another one the connection
  (`pkg/server/client.go:780-787`). `Unanswered.NeverAnsweredExactlyWhenLeft` says, as long as sends
  succeed, that a request given to a handler that is done is never answered if and only if it is left in
  the queue, and that every other one was answered to its end; `Unanswered.ServerWaitsExactlyWhenLeft` says
  the same of what the server still waits for, and `Abandoned.ConnectionIsLost` how long the connection
  then lasts. `Abandoned.LeftInQueueHappens` is such a run.
* **The assertion in `response_sent` can fail** (`client/src/client.cpp:540-542`): the server may close a
  request whose last chunk was just sent, and the client may hear of it before the serve thread
  reports. `ConnectionTheorems.LateReportHappens` is such a run, and
  `ConnectionTheorems.ReportSurprisesExactlyWhenClosed` gives the exact condition. The assertion in
  `on_success` never fails.
* **The wrapped client may stay busy although all started shared clients are idling**: stopping the only
  busy one does not tell it (`client/src/shared_client.cpp:131-150`).
  `SharedClientTheorems.StoppingTheBusyOneLeavesClientBusy` is such a run; the other direction always
  holds. `SharedClientTheorems.LeftUninformedExactlyWhenBusyOneLeaves` says which calls do it: a started
  instance that is not idling stops or is deleted while others are started and all of those idle.
* **The reconnect delays need not grow exponentially, and may get shorter**, because doubling wraps around
  (`client/src/client.cpp:918-923`). They are exponential up to the maximum if and only if twice the
  maximum fits into 63 bits (`Reconnect.ExponentialExactly`); they never get shorter if and only if that
  holds or doubling the configured delay wraps around at once (`Reconnect.NeverShorterExactly`).
  `Reconnect.WrapExample` is a sequence that does.
* **An empty list of content types accepts the range of everything** although no single type would
  (`pkg/server/mime.go:181-184`): `Accept.EmptyListAcceptsEverything`; for the exact condition see
  `Accept.MultiMeansSomeAccepted`. The server's list is never empty.

## Model

| member | source | states |
|---|---|---|
| Chunking.FlattenSlices | client/src/request_handler.cpp:132-161 | joining the first chunks of some content gives its first bytes, joining all of them gives all of it |
| Chunking.NumChunksIsCeiling | pkg/server/client.go:364-376 | the number of chunks is the content size divided by the chunk size, rounded up |
| ServerInvariant.NextChunkInfoMeaning | pkg/server/client.go:364-376 | while chunks are missing, the 64-bit arithmetic does not wrap and yields the next number, its exact length, and whether it is the last |
| ServerRuns.LiveChunk | pkg/server/client.go:1037-1068 | an expected chunk keeps the invariant of its request: one more chunk, or completion, or the end of a request the server had closed |
| ServerRuns.RunKeeps | pkg/server/client.go:722-772 | after any inputs the server invariant holds, and none of its panics is ever reached |
| ServerTheorems.RunRecord | pkg/server/client.go:722-772 | the record of every run obeys the rules of the protocol, event by event, and nothing follows a Close |
| ServerTheorems.AcceptedExactlyWhenAllowed | pkg/server/client.go:896-1048 | in every run a client message is accepted if and only if the rules of the protocol allow it after the messages accepted before; otherwise the connection ends |
| ServerTheorems.RecordForms | pkg/server/client.go:811-894 | per request the server sends a Request and at most one of Success and RequestClosed, a Success only after a full response; the client's accepted messages are an empty response or a header and its first chunks in order, possibly closed early |
| ServerTheorems.IdsIncrease | pkg/server/client.go:811-817 | request ids are positive and never reused |
| ServerTheorems.AnswersAreTimely | pkg/server/client.go:837-894 | at the moment RequestClosed goes out the response is unfinished; at the moment Success goes out it is complete |
| ServerTheorems.EndClosesAll | pkg/server/client.go:722-732 | every request that has left the map is either completed or closed, and when the connection is over every request has left the map |
| ServerEffects.SuccessExactly | pkg/server/client.go:837-860 | in every run a Success goes out, and the request is forgotten, if and only if the request is in the map, nothing but the request was sent about it, and its response has arrived in full; otherwise nothing happens, and the error tells why |
| ServerEffects.ForwardExactly | pkg/server/client.go:811-835 | in every run forwarding sends exactly one Request with the given path under a fresh id, and files a request that waits for its response |
| ServerEffects.CloseExactly | pkg/server/client.go:862-894 | in every run closing a request sends exactly one RequestClosed with the given message if and only if its response is unfinished and it was not closed before; otherwise nothing happens, and the error tells why |
| ServerEffects.RefusedWithReason | pkg/server/client.go:896-1048 | in every run a message that the protocol does not allow ends the connection, with the reason that fits what was accepted before |
| ServerDelivery.ChannelsOnlyGrow | pkg/server/client.go:349-362 | over any part of a run a response's channel only grows at its end, nothing follows its closing, and a request that is closed or completed stays so |
| ServerDelivery.Delivery | pkg/server/client.go:1037-1068 | the channel of every response holds the first chunks accepted for it; if it was closed it holds all of them, ContentSize bytes in total |
| ServerTiming.SweepIsExact | pkg/server/client.go:774-798 | when no closed request has expired and no message that the sweep needs to send is lost, it removes exactly the expired completed requests and closes exactly the expired open ones, in any order of the map |
| ServerTiming.TimeoutCheck | pkg/server/client.go:774-798 | whichever sends find the connection done, a check ends it if and only if a closed request has expired or such a send was needed; otherwise it does exactly its work and every request left is younger than the timeout |
| ServerTiming.RequestLifetime | pkg/server/client.go:236-243 | with a tick at least every I, no request stays in the map for (n + 2) * (T + I) |
| ServerClock.MapExactly | pkg/server/client.go:236-243 | in every run a request is in the map if and only if it was sent, its exchange is not over, and no check found it completed and unconfirmed for the timeout; its clock shows the last turn that counted as life, all told from the record and the times of the inputs |
| ServerClock.DueExactly | pkg/server/client.go:837-860 | a Success is due if and only if the response is full, the request was not closed, and no check has forgotten it |
| ServerLoop.ClientImpl.OnCloseResponse | pkg/server/client.go:896-915 | the handler on mutable requests does what the value-level handler says |
| ServerLoop.ClientImpl.OnEmptyResponse | pkg/server/client.go:917-938 | the same for an empty response |
| ServerLoop.ClientImpl.OnContentHeader | pkg/server/client.go:940-990 | the same for a header |
| ServerLoop.ClientImpl.OnContentChunk | pkg/server/client.go:992-1042 | the same for a chunk |
| ServerLoop.ClientImpl.SendRequest | pkg/server/client.go:811-835 | the same for a new request, with the loop that looks for an unused id |
| ServerLoop.ClientImpl.SendSuccess | pkg/server/client.go:837-860 | the same for a success |
| ServerLoop.ClientImpl.CloseRequest | pkg/server/client.go:862-894 | the same for closing a request |
| ServerLoop.ClientImpl.CheckTimeouts | pkg/server/client.go:774-798 | the loop over the map does what the recursive sweep says |
| ServerLoop.Protocol | pkg/server/client.go:722-772 | the whole loop goes through exactly the states of the run of its inputs |
| Forwarding.Forward | pkg/server/server.go:228-264 | the loop ends in the first round that sees the request closed, the end of the channel, or a failing write, with that outcome, and has written exactly the chunks found until then |
| Forwarding.Serve | pkg/server/server.go:228-264 | while the run goes on and the channel fills: the same, the length check at the end never fails, all that the client sent is written when the loop ends normally, and it does if nothing is in the way and the channel stays closed for more rounds than it has chunks |
| HandlerTheorems.ResponseForm | client/src/request_handler.cpp:83-240 | in every interleaving, what is sent for a request is nothing, the header and the first k chunks, the header with fewer than all chunks and a CloseResponse, or a lone CloseResponse for a request dropped from the queue |
| HandlerSteps.ServeOutcome | client/src/request_handler.cpp:121-173 | a serve step sends at most one message, about the current request, and ends the response as it is, or as closed if it was cancelled, or goes on with it |
| HandlerTheorems.ServingIsFifoAndExclusive | client/src/request_handler.cpp:101-161 | headers go out in the order of the requests, skipping exactly the dropped ones, and the messages of two responses never interleave |
| HandlerTheorems.ExitIsPrompt | client/src/request_handler.cpp:258-286 | once graceful exit is requested the serve loop sends at most one prepared message and then at most one CloseResponse |
| HandlerTheorems.StoppingStep | client/src/request_handler.cpp:99-106 | a stopping serve loop can always go on and comes closer to its end with every step |
| HandlerTheorems.ClosedOnlyOnRequest | client/src/request_handler.cpp:200-240 | a response is closed only if this very request was cancelled or the handler was asked to exit |
| HandlerTheorems.Bookkeeping | client/src/request_handler.cpp:108-111 | every request is in one place only: queued, dropped, or taken by the serve loop, and taken once |
| HandlerTheorems.UnansweredExactlyWhenLeft | client/src/request_handler.cpp:103-106 | in every run whose sends succeed, when the handler is done nothing was sent for a request if and only if it is left in the queue; every other request was answered to its end: completely, closed early, or closed as dropped |
| HandlerStops.CancelIsPrompt | client/src/request_handler.cpp:200-217 | from any reachable state, after cancelling the request being served and in any run whose sends succeed: what goes out about it is the beginning of the header, the chunks that were sent or prepared, and a CloseResponse if and only if chunks are missing, and exactly that after at most StepsToExit serve steps |
| HandlerStops.QueuedCancelCloses | client/src/request_handler.cpp:219-239 | a request cancelled in the queue gets a single CloseResponse, and nothing else ever |
| HandlerStops.ExitsInTime | client/src/request_handler.cpp:258-286 | a handler that is asked to exit is done after at most StepsToExit serve steps, whatever happens |
| HandlerProgress.ServedInTime | client/src/request_handler.cpp:99-173 | a request that is served or queued, and that nobody interrupts, is answered in full within TurnsLeft serve steps, whatever else is enqueued or cancelled meanwhile |
| HandlerProgress.TurnsAtPlace | client/src/request_handler.cpp:99-173 | at place p of the queue that bound is what the current response still needs, and p + 1 times two steps for each chunk and four |
| HandlerObject.RequestHandler.CancelRequest | client/src/request_handler.cpp:200-240 | the method, with its search of the queue, does what the value-level step says |
| HandlerObject.RequestHandler.RequestExit | client/src/request_handler.cpp:258-276 | the same for the first part of graceful exit; nothing happens if the thread was never spawned, and it throws exactly when it was asked before and the loop still runs |
| HandlerObject.RequestHandler.SpawnServeThread | client/src/request_handler.cpp:242-256 | spawns the thread once, and throws if it was spawned before or the handler was stopped |
| HandlerObject.RequestHandler.ServeRequest | client/src/request_handler.cpp:183-198 | the same for enqueueing |
| HandlerObject.RequestHandler.ServeStep | client/src/request_handler.cpp:54-174 | the same for one section of the serve loop |
| ClientHandlers.ServeMoves | client/src/request_handler.cpp:73-79 | a serve step sends at most one message, about a request that was enqueued, and forgets no report |
| ClientRuns.StepKeeps | client/src/client.cpp:473-581 | every step of a client connection keeps its invariant: who serves which request, what was sent about it, and what the table of requests holds |
| ClientInvariant.UnregisterKeeps | client/src/client.cpp:322-356 | unregistering keeps the invariant and never meets the exception in graceful exit |
| ClientInvariant.AtCallback | client/src/client.cpp:535-546 | a response about to be reported belongs to the handler that was given the request, and was not reported before |
| ClientClosing.StepExplained | client/src/client.cpp:562-581 | in every step of a connection, a response that is cut short belongs to a request that the server has closed or to a handler that was asked to stop |
| ClientObject.ClientImpl.RegisterContent | client/src/client.cpp:267-320 | ends with exactly one of the exceptions, in the order of the checks, or adds one handler under the path; and idles afterwards exactly when no content is registered |
| ClientObject.ClientImpl.WaitUntilReady | client/src/client.cpp:591-622 | which way the wait for the connection ends, from what is known before it and after each of its two waits |
| ClientObject.ClientImpl.UnregisterContent | client/src/client.cpp:322-356 | does what the value-level step says, up to the wait for the serve loop, and starts idling if no content is registered and idling is automatic |
| ClientObject.ClientImpl.CheckContentConstraints | client/src/client.cpp:212-251 | accepts exactly content of allowed size, type and filename |
| ClientObject.ClientImpl.OnRequest | client/src/client.cpp:473-518 | the method does what the value-level step says, with the verdict of the limiter, which sees every request whose id is not in use; a restart is asked for exactly when the id is in use or the verdict is against the request |
| ClientObject.ClientImpl.OnRequestClosed | client/src/client.cpp:562-581 | the same for a closed request |
| ClientObject.ClientImpl.ResponseSent | client/src/client.cpp:535-546 | the same for the report of a sent response |
| ClientObject.ClientImpl.CallServedCallback | client/src/client.cpp:520-533 | the second of the two reports runs the callback and removes the entry |
| ClientObject.ClientImpl.ServeTurn | client/src/client.cpp:516-517 | a step of a serve thread, with the report when it is due |
| Responses.FormAllows | client/src/client.cpp:212-251 | for content that registration accepts, every message of a handler may follow the ones before it under the server's rules, except the CloseResponse of a dropped request |
| Connection.RunKeeps | client/src/client.cpp:671-722 | in every joint run what the server accepted and what is under way is exactly what the client sent, in order |
| Connection.TakesAllButBare | pkg/server/client.go:896-1048 | an open server accepts the next message of the client unless it is a bare CloseResponse, which it answers with the reason for an invalid message |
| Connection.HeadLegal | client/src/client.cpp:703-722 | the server's next message is one that the client can expect |
| ConnectionTheorems.OnlyBareClosesAreRefused | pkg/server/client.go:896-915 | the only refused messages are bare CloseResponses, and the server ends a connection only for one of them or for a timeout |
| ConnectionTheorems.RefusedExactlyWhenDropped | client/src/request_handler.cpp:219-239 | the next message is refused if and only if its request was dropped from the queue of its handler, and if and only if it is a CloseResponse about which the server has accepted nothing before; nothing sent for a request that the serve loop has taken is refused |
| ConnectionTheorems.ForwardedIsSource | pkg/server/client.go:1037-1068 | what the server forwards are the first bytes of the registered content, under a header with its type, size, cache duration and filename, and all of its bytes once the request is completed |
| ConnectionTheorems.SentMeansCompleted | client/src/request_handler.cpp:162-173 | once all chunks were sent and taken, the request is completed with the bytes of the source, unless the server had closed it |
| Completion.NobodyClosedMeansCompleted | client/src/request_handler.cpp:113-173 | in every run, a request that the serve loop is through with and that neither the server nor graceful exit has closed is completed with exactly the bytes of the source, once the server has taken what was sent |
| Completion.StepProjects | client/src/client.cpp:473-581 | every step of a client does to each of its handlers nothing or one of the handler's own steps |
| Completion.ServedInTime | client/src/request_handler.cpp:99-173 | in every run of the connection, a request that is served or queued and that nobody interrupts is answered in full within TurnsLeft turns of its serve thread |
| Completion.EnoughTurns | client/src/request_handler.cpp:113-173 | counted from the moment the serve loop turns to the request, two turns for each chunk and four more are enough |
| Completion.EnoughTurnsFromQueue | client/src/request_handler.cpp:99-173 | counted from place p of the queue, what the current response still needs and p + 1 whole responses are enough |
| Completion.RequestEndsCompleted | client/src/request_handler.cpp:99-173 | if nobody closes the request and enough turns pass, it ends completed with exactly the bytes of the source |
| Completion.TakenEndsCompleted | client/src/client.cpp:473-518 | from the moment the client takes a request for registered content, the turns for the requests ahead of it and for itself lead to its completion with exactly the bytes of the source, if nobody closes it, its handler is not interrupted, and the server has taken everything |
| Confirmed.ConfirmedIsServed | client/src/client.cpp:520-560 | in every run a response that the serve loop is through with was reported, unless the server closed it or the handler was asked to stop; and once the client has the Success for it, the served callback has run |
| ConnectionStops.RunOf | client/src/client.cpp:473-581 | any continuation of a run of the connection is for each handler a run of its own, with its turns and the outcome of its sends |
| ConnectionStops.ClosedIsPrompt | client/src/client.cpp:562-581 | from the moment the client hears that a request being served is closed: what goes out is the beginning of the header, the chunks sent or prepared by then, and a CloseResponse if and only if chunks are missing, and exactly that after the bound |
| ConnectionStops.ClosedInQueue | client/src/client.cpp:562-581 | a request that is closed while queued gets a single CloseResponse, and nothing else ever |
| ConnectionStops.UnregistersInTime | client/src/client.cpp:322-356 | the handler of content that is unregistered is done after at most StepsToExit turns, whatever happens |
| ConnectionCalls.RegistersExactly | client/src/client.cpp:267-320 | in every run registering adds exactly this path, with a new handler for exactly this content, if the path is free and the content fits; otherwise nothing changes |
| ConnectionCalls.FinishesExactly | client/src/client.cpp:350-356 | unregistering returns when the handler is done, and then exactly that path is gone |
| ConnectionCalls.AbsentIsAnswered | client/src/client.cpp:494-512 | in every run a request taken for a path under which nothing is registered is answered with an empty response and nothing else ever; an open server that has taken it has completed the request with nothing handed over |
| ConnectionCalls.EmptyOnlyForAbsent | client/src/client.cpp:494-512 | an empty response is sent only for a request taken while nothing was registered under its path |
| Unanswered.NeverAnsweredExactlyWhenLeft | client/src/client.cpp:350-355 | in every run in which the sends of a handler succeed: when it is done, nothing is ever sent about a request that it was given if and only if the request is left in its queue; every other one was answered to its end |
| Unanswered.ServerWaitsExactlyWhenLeft | pkg/server/client.go:780-787 | in such a run an open server that has taken everything still waits for a response if and only if the request was left in the queue |
| Abandoned.ServerRuns | pkg/server/client.go:722-772 | the server of a connection goes through a run of its own, so all theorems about its runs hold in the connection |
| Abandoned.ConnectionIsLost | pkg/server/client.go:780-787 | with a tick at least every I, a connection with such a request is open only while the request is younger than (n + 2) * (T + I) |
| Abandoned.LeftInQueueHappens | pkg/server/client.go:780-787 | a run in which such a request ends the connection with a timeout |
| ConnectionTheorems.OnlyLateReportsSurprise | client/src/client.cpp:473-560 | no id is in use twice, every Success is for a known request, and no handler is asked to exit twice; a report surprises only for a request closed before |
| ConnectionTheorems.ReportSurprisesExactlyWhenClosed | client/src/client.cpp:535-546 | a report finds its request unregistered if and only if the server has closed the request by then |
| ConnectionTheorems.ServedOnceAndDelivered | client/src/client.cpp:520-560 | the served callback runs at most once, exactly when the response was reported and confirmed, and then the server has all of it |
| ConnectionTheorems.ClosedWhileQueuedIsRefused | pkg/server/client.go:903-907 | a run in which a request closed while queued ends the connection |
| ConnectionTheorems.LateReportHappens | client/src/client.cpp:539-544 | a run in which a report finds its request unregistered |
| SharedClientRuns.PrefixFree | client/src/shared_client.cpp:80-84 | a full path determines the index and the user's path |
| SharedClientRuns.StepKeeps | client/src/shared_client.cpp:86-228 | every call of every instance keeps the counters, indices, ownership of content and idle safety |
| SharedClientTheorems.CountersAreExact | client/src/shared_client.cpp:375-437 | the counters equal the number of instances with the flag, idling implies started, and no assertion fails |
| SharedClientTheorems.StoppedExactlyWithTheLast | client/src/shared_client.cpp:131-150 | the wrapped client is stopped exactly when the number of started instances goes from one to zero |
| SharedClientTheorems.IdledExactlyWithTheLast | client/src/shared_client.cpp:195-228 | the wrapped client is told to idle exactly by the call that makes all started instances idle |
| SharedClientTheorems.IdleMeansAllIdle | client/src/shared_client.cpp:195-228 | whenever the last command was to idle, every started instance is idling |
| SharedClientTheorems.StoppingTheBusyOneLeavesClientBusy | client/src/shared_client.cpp:131-150 | a run that shows that the converse fails |
| SharedClientTheorems.LeftUninformedExactlyWhenBusyOneLeaves | client/src/shared_client.cpp:131-150 | in every run, a call keeps the converse if and only if it is not the stop or the destruction of a busy instance that leaves only idling ones |
| SharedClientTheorems.AlwaysToldOtherwise | client/src/shared_client.cpp:195-228 | in every run without such a call, the wrapped client was told to idle whenever all started instances are idling |
| SharedClientTheorems.PathsAreSeparate | client/src/shared_client.cpp:284-291 | two live instances can never register the same full path |
| SharedClientTheorems.StopRemovesOwnContent | client/src/shared_client.cpp:131-181 | stopping an instance that is not the last started one removes exactly the content under its own prefix |
| SharedClientEffects.RegistersExactly | client/src/shared_client.cpp:293-302 | in every run registering adds exactly the index, a slash and the path, under an id no other path has, with a handle for this instance and no other, if that path is free and the content accepted; otherwise nothing changes |
| SharedClientEffects.UnregistersExactly | client/src/shared_client.cpp:314-327 | an own handle frees exactly its path and is forgotten; a handle of somebody else changes nothing |
| SharedClientEffects.ContentExactly | client/src/shared_client.cpp:329-353 | listing the content forgets exactly the handles whose path is not registered any more |
| SharedClientEffects.IsRegisteredExactly | client/src/shared_client.cpp:355-371 | asking forgets the handle if its path is not registered any more, and answers whether it is and the handle is one's own |
| SharedClientEffects.FlagsExactly | client/src/shared_client.cpp:58-228 | which flags every call leaves behind, for its own instance and no other |
| SharedClientObject.SharedReferenceCounter.Add | client/src/shared_client.cpp:375-393 | counts one more and hands out the next index, for this client only |
| SharedClientObject.SharedReferenceCounter.Remove | client/src/shared_client.cpp:395-421 | counts one less, returns the old count, and forgets the client at zero |
| SharedClientObject.SharedClientImpl.Start | client/src/shared_client.cpp:86-129 | the method does what the value-level call says, with its assertions proved; the ready callback is called right away exactly when the wrapped client was started before and is ready |
| SharedClientObject.SharedClientImpl.Stop | client/src/shared_client.cpp:131-150 | the same for stop; the disconnect callback is called exactly when others stay started |
| SharedClientObject.SharedClientImpl.Idle | client/src/shared_client.cpp:195-228 | the same for idle |
| SharedClientObject.SharedClientImpl.UnregisterAll | client/src/shared_client.cpp:172-181 | the loop, in any order, removes exactly the paths of the handles of this instance |
| SharedClientObject.SharedClientImpl.Content | client/src/shared_client.cpp:329-353 | lists the handles of this instance that are current, and forgets the stray ones |
| SharedClientRuns.ReachForDestroy | client/src/shared_client.cpp:486-518 | in every reachable state the counts are as the destructor's assertions need them |
| SharedClientObject.SharedClientImpl.Destroy | client/src/shared_client.cpp:58-66 | the destructor finds its assertions true |
| SharedCallbacks.CallbacksTakeTurns | client/src/shared_client.cpp:250-276 | the user's ready and disconnect callbacks take turns, and the last one tells whether the instance is started and the wrapped client ready |
| SharedCallbacks.CallbackMap.Execute | client/src/shared_client.hpp:232-245 | every callback runs once, in the order of the keys |
| SharedCallbacks.CallbackMap.Set | client/src/shared_client.hpp:205-212 | replaces or unsets the callback of one key |
| Locks.CallsAreOrdered | client/src/client.cpp:322-356 | every call takes the mutexes in one order, touches shared data only under its mutex, and gives all mutexes back |
| Locks.CallsServeTheirPurpose | client/src/client.cpp:473-581 | which shared data each call touches, and which serve loops it stops and waits for |
| Locks.PiecesServeTheirPurpose | client/src/request_handler.cpp:54-81 | which shared data each piece of the serve loop touches |
| Locks.ServeIsOrdered | client/src/request_handler.cpp:54-181 | so does the serve loop, which never needs the client's main mutex |
| Locks.NoDeadlock | client/src/request_handler.cpp:258-286 | in every reachable state of any number of threads and handlers, if a thread is in the middle of something then some thread can go on |
| Locks.NoRace | client/src/request_handler.cpp:15-28 | in every reachable state no two threads are about to touch the same shared data |
| RequestLimit.WindowBound | client/src/client.cpp:454-469 | in any window of the configured length at most the configured number of requests without content is let through |
| RequestLimit.Spacing | client/src/client.cpp:446-453 | two requests for the same content that are let through are more than the minimum cache duration apart |
| RequestLimit.ContentLimitedExactly | client/src/client.cpp:446-453 | a request for content is turned away if and only if one for the same content was let through within the minimum cache duration |
| RequestLimit.MissLimitedExactly | client/src/client.cpp:454-469 | a request for nothing is turned away if and only if as many as are allowed arrived in the window that ends with it |
| RequestLimit.PruneIsRecent | client/src/client.cpp:457-464 | erasing from the front keeps exactly the times within the window |
| RequestLimit.Limiter.Check | client/src/client.cpp:442-471 | the verdict from the pruned history is the one that the full history gives |
| Reconnect.ExponentialExactly | client/src/client.cpp:894-928 | attempt 1 waits 0; attempt k waits the smaller of the maximum and d * 2^(k-2), or d without a maximum, for all k if and only if twice the maximum fits into 63 bits |
| Reconnect.Bounds | client/src/client.cpp:916-924 | from the second attempt on the delay lies between the configured delay and the maximum, even if doubling wraps around |
| Reconnect.NeverShorterExactly | client/src/client.cpp:894-928 | the delays never get shorter if and only if twice the maximum fits into 63 bits or twice the configured delay does not |
| Reconnect.WrapExample | client/src/client.cpp:918-923 | an example in which the delay falls back to the configured one |
| Reconnect.ReconnectDelay.NextDelay | client/src/client.cpp:894-928 | the method does what the value-level step says and returns no negative delay |
| Reconnect.ReconnectDelay.ResetDelay | client/src/client.cpp:930-936 | the next delay is again that of the first attempt |
| Base64.Encode | client/src/base64.cpp:26-85 | the loop computes the encoding |
| Base64.RoundTrip | client/src/base64.cpp:51-84 | decoding by RFC 4648 inverts the encoder for every byte string and all three variants |
| Base64.Length | client/src/base64.cpp:51-84 | the unpadded length is 4n/3 rounded up, the padded one the next multiple of four |
| Base64.UnpaddedIsStripped | client/src/base64.cpp:65-82 | the unpadded form is the padded one without its padding |
| Base64.UrlSplitsUniquely | client/src/client.cpp:189-200 | client id, signature and path can be read back from a content URL in one way only |
| Accept.NewMultiContentTypeIndex | pkg/server/mime.go:105-119 | the loop fills the index with exactly the types and root types of the list |
| Accept.CanServeAccept | pkg/server/mime.go:169-198 | the loop finds out whether some item of the header is served |
| Accept.MediaRangeIsTrimmed | pkg/server/mime.go:171-176 | white space around a media range, and parameters after it, do not matter |
| Accept.SingleMeansAccepted | pkg/server/server.go:201-209 | the check of a response's own type is what the Accept header says about it |
| Accept.MultiMeansSomeAccepted | pkg/server/mime.go:99-133 | the registry of all types accepts a header if and only if the header accepts one of them, or the list is empty and the header has the range of everything |
| Accept.EmptyListAcceptsEverything | pkg/server/mime.go:181-184 | an example: the empty list accepts the range of everything, although it has no type |
| Accept.EarlyCheckIsExact | pkg/server/server.go:107-116 | the early check turns away exactly the requests of which no response with a type from the list would pass the later one |
| Accept.ContainsMeansSome | pkg/server/mime.go:158-166 | the registry contains a type or wildcard if and only if one of its types alone would, or the list is empty and everything matches |
| Accept.JoinDistributes | pkg/server/mime.go:169-198 | joining two headers with a comma accepts what either accepts |

## Left out

- The Hello message: its limits are the configuration that both machines start from, and the list of content types is taken to be the same on both sides.
- Websocket input and output, protobuf decoding, pings and write timeouts: the model starts from the four decoded client messages. An outgoing message is recorded when it is queued.
- The server's final Close may overtake queued messages; for the client it is the end of the connection, which ends the model's run at any point.
- Handling of connection loss, restart and the manager thread, except for their locks: a run covers one connection from the moment it is ready.
- The signature of a URL is any byte string; HMAC and random client ids are not modelled. MIME parsing is not either: a content type comes as its full name and root.
- Request ids below 2^64: the counter of the model does not wrap around.
- The order in which Go visits a map and picks among ready channels: any order and any choice, as inputs.
- The relays between HTTP handlers and the protocol loop, and chunkDiscarder, whose inner loop has no exit when a request completes while it is being discarded (`pkg/server/client.go:584-594`).
- What becomes of the requests of a handler whose send failed, since a failed send ends the connection.
- Restart requests after a failed send or an exceeded limit: the model lets the threads go on, which covers every later moment of disconnection.
- The branch for empty content in onContentHeader (`pkg/server/client.go:986-989`): an earlier check makes it unreachable.
- ClientObject.ClientImpl.RegisterContent: waiting for the connection releases the mutex; the model takes the outcome of the wait and lets nobody else register content meanwhile, as a run begins with a connection that is ready.
- ClientObject.ClientImpl.WaitUntilReady: what is known after each wait is an input, and starting the connection is left out.
- ClientObject.ClientImpl.OnRequest: the restart is a result, not carried out.
- SharedClientObject.SharedClientImpl.Start: whether the wrapped client is ready is an input; that a callback is called is a result, and what calls mean to the user is in `SharedCallbacks`.
- SharedClientObject.SharedClientImpl.Stop: the same for the disconnect callback.
- RequestHandler::destroy, the destructor of the handler, the served and unregistered callbacks of users, logging.
- The stream of a content source holds exactly size() bytes and is good after every full read, as the two sources of the library guarantee.
- HandlerProgress.ServedInTime: counts steps of the serve loop; how long a send takes is up to the network.
- Locks.NoDeadlock: condition variables other than the one for the end of a serve loop are not modelled as waiting, since their waits end by a timeout or by new work; m_conn->stop() is foreign code.
- Locks.CallsAreOrdered: user callbacks that run under a lock are not part of the scripts.
- SharedClientRuns.StepKeeps: each public call is one step; the counters are read one after the other in the source.
- SharedClientObject.SharedClientImpl.Register: the wrapped client's own reasons for refusing content are one input, and direct use of the wrapped client beside its instances is not covered.
- SharedCallbacks.FlagIsExact: the ready check in start is taken to tell whether the wrapped client is ready at that moment.
- ClientCallbackMap: a map from wrapped clients to callback tables, which would only add easy members.
- Reconnect.Bounds: the number of attempts is unbounded in the model, and doubling wraps around as the source's comment expects.
- Base64.Encode: the index of the loop is unbounded, where the source has an int; it agrees for inputs below 2^31 bytes.
- Accept.CanServeAccept: white space is that of Latin-1, where the library also trims other Unicode spaces.
- RequestLimit.Limiter.Check: times are integers of a clock that does not run backwards.
- Whether is_registered means the same content after its path was registered again, ClientManager, the Go client, the command line, configuration loading, certificates, and the transport backends.
