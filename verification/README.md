# Device SDK protocols: a verified model

A Dafny model of three parts of the AWS IoT Device SDK for C++ and proofs about it: the event-stream RPC client (a
connection and its continuations), the JSON codec of the Greengrass IPC shapes, and the topics of the commands service.
`dafny verify dfyconfig.toml` checks everything.

## How it is built

- `FlushContainer.dfy`: the once-only completion of a flush callback and its promise.
- `ConnectionProtocol.dfy`, `ConnectionRuns.dfy`, `Connection.dfy`: the connection. The first gives each locked section
  as a function on the shared state, the whole system (shared state, C layer, threads out of the lock, references,
  history) as a value, and its steps; the second proves what holds over every run; the third is the class, one method
  for each locked section, each proved equal to its step. Between two locked sections of one call any other step may
  run, so the unlocked windows are open to every other thread.
- `ContinuationProtocol.dfy`, `ContinuationRuns.dfy`, `Continuation.dfy`: the same for a continuation, with
  `Routing.dfy` for the classification of inbound messages, `ContinuationMessages.dfy` for which of them answers the
  activation and `ContinuationDrain.dfy` for the completion of every future.
- `ConnectionEffects.dfy`: what the user sees, the effects of every context handed out; `ConnectionDrain.dfy`: how a
  connection that has been closed comes to its end.
- `LockDiscipline.dfy`, `Deadlocks.dfy`: the locks every method takes, as traces, with user code re-entering the client;
  and threads running such traces on any number of continuations and event loops under any schedule.
- `Headers.dfy`: headers, which own a buffer, and the CONNECT message.
- `Json.dfy`, `Base64.dfy`, `Shapes.dfy`, `Unions.dfy`, `ShapeDocuments.dfy`, `ShapeCodec.dfy`: documents as trees,
  shapes and their JSON as values with the round trips, every document and what any document is loaded as member by
  member, and the imperative serialisers and loaders proved against them.
- `Topics.dfy`: splitting, building, matching and attributing topics.

What the model assumes of the C layer, and writes down in the two `Enabled` predicates:

- Setup is called once for each connect call that succeeded, the channel's end once after a successful setup. ACKs and
  the end come only in between, and not while the setup callback is still running on the event loop.
- An accepted message is flushed once. A failed call leaves an error other than 0.
- Messages and the closed callback of a continuation come one at a time and only for an activation that was accepted.
- ShutDown of a continuation is called once, with no Activate in flight; no Activate or SendStreamMessage follows it.
  Shutdown of a connection is called once and no Connect follows it. Close may come at any time, any number of times.

A callback or context moved out under a lock is counted at the moment it is moved out; the source uses it right after
the lock is released, so "silent" means that no later locked section hands anything out.

## Where the code and its documentation differ

- `eventstream_rpc/include/aws/eventstreamrpc/EventStreamClient.h:230-234` says OnConnectCallback is only invoked for an
  accepted CONNECT_ACK. The callback is chosen by crtError alone, so it also runs, with a promise that reports failure,
  after a rejected ACK and when the channel ends with code 0 before anything else went wrong.
  `ConnectionRuns.ConnectCallbackExactly` is the exact condition, `ConnectionRuns.ConnectCallbackAfterRejectedAck` a run.
- Activate's rollback writes None without looking at the state, and Close's rollback writes back the state it saw. When
  a Close got in between and fails after a failed Activate, the continuation ends up in PendingActivate with no
  activation and is never released: `ContinuationRuns.OverlapStrands` and `ContinuationRuns.StrandedForever`. It is
  stranded exactly when some Close that fails finds no activation accepted or in flight, which its rollback does not
  check: `ContinuationRuns.StrandedExactly` and `ContinuationRuns.ShutDownReleases`.
  `ContinuationRuns.CoherentIffClean` is about less: it says exactly when the state agrees with the end-of-stream
  messages sent and the responses taken.
- OnMessage takes a message for the activation's response by the state it finds. A response that arrives while a Close
  is being sent goes to the stream handler; if that Close fails, the next message answers the activation
  (`ContinuationMessages.ResponseMissed`), and a terminate message may follow a response that ended the stream
  (`ContinuationMessages.TerminateAfterMissedEnd`). The exact conditions are
  `ContinuationMessages.FirstMessageAnswers`, `ContinuationMessages.FirstMessageExactly`,
  `ContinuationMessages.NoTerminateAfterEnd` and `ContinuationMessages.FailedCloseAndArrivals`.
- The comment at `eventstream_rpc/source/EventStreamClient.cpp:1500-1509` calls deadlock no risk. A call or callback can
  take part in a deadlock if and only if it is a stream event whose handler shuts down a continuation of another event
  loop, while the callback does not shut down its own continuation: `Deadlocks.DeadlockExactly`, with
  `Deadlocks.CrossingDeadlocks` for the schedule. On a single event loop there is none.
- Copying a header that holds a fixed-size value replaces that value by a pointer to an empty buffer
  (`Headers.EventStreamHeader.Copy`); strings and byte buffers are copied whole.
- Response topics name their execution uniquely only for identifiers without slashes: `Topics.ResponseTopicsEqual` is
  the exact condition, `Topics.ResponseTopicsCollide` a case.

## Model

| member | source | states |
|---|---|---|
| FlushContainer.FirstCompletionWins | eventstream_rpc/source/EventStreamClient.cpp:64-101 | Over any non-empty list of completions of one container, the promise gets exactly the first error and the user's flush callback exactly its code; all later ones do nothing. |
| FlushContainer.OnMessageFlushCallbackContainer.Complete | eventstream_rpc/source/EventStreamClient.cpp:64-101 | One completion, null container included: what it hands to the promise and to the callback is exactly what the container's ledger gains, and the flags stay consistent with the ledger. |
| FlushContainer.OnMessageFlushCallbackContainer.ProtocolMessageCallback | eventstream_rpc/source/EventStreamClient.cpp:163-170 | The C layer's report completes the container with SUCCESS exactly for code 0, and otherwise with CRT_ERROR and that code; the flush callback gets the code. |
| ConnectionProtocol.InvKept | eventstream_rpc/source/EventStreamClient.cpp:832-1218 | Every step (each locked section, each return from an unlocked C call, each C callback) keeps the whole invariant: state, callback context, references, promise accounting, first errors, flush containers. |
| ConnectionRuns.CallbacksFindTheirState | eventstream_rpc/source/EventStreamClient.cpp:1067-1100 | Over every run, the fatal asserts of the setup callback hold, the self reference is set while the C layer has work, the C connection is stored exactly in PendingConnack, Connected and Disconnecting, and a stored flush container implies a C connection. |
| ConnectionRuns.PromiseResolvedOnce | eventstream_rpc/source/EventStreamClient.cpp:832-914 | Over every run, an accepted Connect's promise is handed out with its value at most once; it is still owed exactly while that attempt is current, not Connected yet, not ended and not shut down; its value is SUCCESS exactly when the attempt entered Connected. |
| ConnectionRuns.DisconnectCallbackOnce | eventstream_rpc/source/EventStreamClient.cpp:632-662 | Over every run, an attempt's disconnect context is handed out exactly once if it entered Connected and has ended (or Shutdown ran), and never otherwise. |
| ConnectionRuns.FirstErrorWins | eventstream_rpc/source/EventStreamClient.cpp:666-672 | Every context handed out in any run carries the first error recorded since Connect, or since Connected was entered. |
| ConnectionEffects.InvokedExactly | eventstream_rpc/source/EventStreamClient.cpp:609-643 | Invoking any context handed out in any run calls the running attempt's error callback or, for code 0, its connect callback, and then sets its promise, or calls its disconnect callback, each time with the first error recorded. |
| ConnectionEffects.EffectsExactly | eventstream_rpc/source/EventStreamClient.cpp:609-663 | Over every run and for every attempt, in the effects of all contexts invoked: one promise set at most and just when PromiseResolvedOnce says, with SUCCESS exactly if Connected was entered; the error callback once, with the same error, exactly if that has a code, and the connect callback otherwise; the disconnect callback once exactly for an attempt that was connected and is over or shut down. |
| ConnectionEffects.LifeOfAConnection | eventstream_rpc/source/EventStreamClient.cpp:930-1218 | A run from Connect through CONNECT_ACK and Close to the end of the channel, with exactly the connect callback, the promise set to SUCCESS and the disconnect callback, the channel closed and no reference left. |
| ConnectionRuns.NothingIsPromised | eventstream_rpc/source/EventStreamClient.cpp:930-1218 | The C layer may answer either way at each of its steps, and Close may be called in any state. |
| ConnectionRuns.ReferencesConserved | eventstream_rpc/source/EventStreamClient.cpp:840-913 | Over every run, the references held on each C connection are the stored one plus those of the unlocked windows; every send and close is made on a referenced connection; the count is zero when Disconnected with no close in flight. |
| ConnectionRuns.DisconnectingIsClosed | eventstream_rpc/source/EventStreamClient.cpp:878-913 | Over every run, a connection that is Disconnecting has its C connection closed, or a thread holds a reference to it and is about to close it. |
| ConnectionRuns.CloseIsNeverLost | eventstream_rpc/source/EventStreamClient.cpp:870-884 | After a Close or Shutdown at any point of an attempt, whatever follows, that attempt never enters Connected if it had not already. |
| ConnectionRuns.StepMovesForward | eventstream_rpc/source/EventStreamClient.cpp:724-740 | A step either begins an attempt in Disconnected or leaves the attempt number and keeps the state or moves it forward. |
| ConnectionRuns.StateChangesBounded | eventstream_rpc/source/EventStreamClient.cpp:724-740 | A run with n attempts has at most 5n state changes, which is the termination measure of an attempt. |
| ConnectionRuns.ShutdownIsSilent | eventstream_rpc/source/EventStreamClient.cpp:847-897 | After Shutdown's locked section no later section, whatever follows, hands out a callback context or reaches Connected; Shutdown itself hands out at most one. |
| ConnectionRuns.ConnectCallbackExactly | eventstream_rpc/source/EventStreamClient.cpp:609-631 | The success callback runs with a completed promise if and only if the attempt entered Connected or its first recorded cause was a rejected ACK or a channel end with code 0: the exact condition under which the documented promise of the header file is missed. |
| ConnectionRuns.ConnectCallbackAfterRejectedAck | eventstream_rpc/source/EventStreamClient.cpp:1187-1192 | A reachable run in which a rejected ACK completes the promise with ACCESS_DENIED and still runs the success callback. |
| ConnectionRuns.ConnectFlushAtMostOnce | eventstream_rpc/source/EventStreamClient.cpp:1094-1138 | The flush container of a CONNECT is completed at most once, and exactly once unless the C layer still owes the flush or the CONNECT could not be sent. |
| ConnectionRuns.ConnectFlushCompleted | eventstream_rpc/source/EventStreamClient.cpp:903-906 | An open connect flush container is completed with what the C layer reports, or by Shutdown with CONNECTION_CLOSED. |
| ConnectionDrain.EndsInTime | eventstream_rpc/source/EventStreamClient.cpp:832-914 | After a Close, whatever the C layer answers and whatever ACKs and Closes come in between, the number of other steps is bounded (by one more for each further Close), and when none is due any more, the channel's end being due only once the binding has closed the connection, the client is Disconnected, holds no reference, has no close in flight, the promise has its one value and every flush container is complete but that of a CONNECT that could not be sent. |
| ConnectionDrain.EveryAttemptEnds | eventstream_rpc/source/EventStreamClient.cpp:832-914 | From every reachable state in which a Close has been called there is a run of due steps to that end. |
| Connection.MoveToConnected | eventstream_rpc/source/EventStreamClient.cpp:649-663 | The context returned completes the promise with success and runs the connect callback; the one kept runs the disconnect callback with no error recorded and no longer has the promise. |
| Connection.ClientConnectionImpl.constructor | eventstream_rpc/source/EventStreamClient.cpp:780-786 | A new client starts in the initial state, which satisfies the invariant. |
| Connection.ClientConnectionImpl.Connect | eventstream_rpc/source/EventStreamClient.cpp:930-969 | Connect is refused exactly for a missing host or port, or outside Disconnected, with the error of each case and no change of state; otherwise the promise of the new attempt is owed. |
| Connection.ClientConnectionImpl.MoveToDisconnected | eventstream_rpc/source/EventStreamClient.cpp:832-858 | Every field afterwards; unless Shutdown ran the context handed out is the stored one with its first error; the error is recorded in the history before it. |
| Connection.ClientConnectionImpl.RollBackConnect | eventstream_rpc/source/EventStreamClient.cpp:999-1003 | A failed connect call ends the attempt with CONNECTION_SETUP_FAILED and its code, unless an error came first. |
| Connection.ClientConnectionImpl.OnConnectionSetupFailed | eventstream_rpc/source/EventStreamClient.cpp:1055-1060 | A failed setup ends the attempt with CRT_ERROR and its code, unless an error came first. |
| Connection.ClientConnectionImpl.OnConnectionShutdown | eventstream_rpc/source/EventStreamClient.cpp:1154-1163 | The end of the channel ends the attempt with CONNECTION_CLOSED and its code, unless an error came first. |
| Connection.ClientConnectionImpl.CloseInternal | eventstream_rpc/source/EventStreamClient.cpp:863-914 | The stored connection is taken and closed exactly in Connected and PendingConnack, which become Disconnecting; CONNECTION_CLOSED is recorded unless an error came first; only Shutdown hands out the context and the flush container. |
| Connection.ClientConnectionImpl.OnConnectionSetup | eventstream_rpc/source/EventStreamClient.cpp:1049-1100 | Sends CONNECT, with a fresh flush container, exactly when Connected is still desired and otherwise closes; the connection is stored; the three fatal asserts are proved from the invariant. |
| Connection.ClientConnectionImpl.RollBackConnack | eventstream_rpc/source/EventStreamClient.cpp:1127-1139 | A failed CONNECT send records CRT_ERROR and its code unless an error came first, hands the reference it holds over to the close and drops the flush container. |
| Connection.ClientConnectionImpl.OnConnectAck | eventstream_rpc/source/EventStreamClient.cpp:1177-1217 | Connected is entered exactly from PendingConnack on an accepted ACK, then promise and connect callback are completed; otherwise ACCESS_DENIED or CONNECTION_CLOSED is recorded unless an error came first or Shutdown ran, and the channel is closed unless it is closing already. |
| Routing.FirstHeader | eventstream_rpc/source/EventStreamClient.cpp:1325-1337 | The result is the first header of that name, and None exactly when no header has it. |
| Routing.GetHeaderByName | eventstream_rpc/source/EventStreamClient.cpp:1325-1337 | The loop finds the first header of that name. |
| Routing.FirstHeaderOfConcatenation | eventstream_rpc/source/EventStreamClient.cpp:278-281 | Headers put in front hide those of the same name behind them and no others. |
| Routing.DeserializeRawMessage | eventstream_rpc/source/EventStreamClient.cpp:2025-2164 | The sequence of early returns computes the declarative classification of the message by name, content type and allocation. |
| Routing.ClassificationSound | eventstream_rpc/source/EventStreamClient.cpp:2025-2164 | SUCCESS holds exactly for a fitting name, JSON content and an allocated shape; the Response route occurs only while a response is awaited and the Stream route only when not; the activation's answer is a response, modeled error or RPC failure in exactly the matching case. |
| Routing.ClassifiedByHeaders | eventstream_rpc/source/EventStreamClient.cpp:2047-2163 | The whole classification by the first service-model-type header and the first :content-type header, or its absence: which names are compared with what, which content is accepted, which allocator gets which payload. |
| Routing.ClassifiedWithoutName | eventstream_rpc/source/EventStreamClient.cpp:2047-2057 | A message without a model header is unmapped, whatever else it holds. |
| Routing.ResponseIsNamed | eventstream_rpc/source/EventStreamClient.cpp:2061-2073 | Success on the Response route means that the first model header is the operation's response name and the first content type header is application/json, and that the shape is the response allocator's on the payload. |
| ContinuationProtocol.InvKept | eventstream_rpc/source/EventStreamClient.cpp:1616-2274 | Every step of a continuation keeps the whole invariant: state against C layer, answers, container ownership, flush promises, release. |
| ContinuationRuns.FlushResolvedOnce | eventstream_rpc/source/EventStreamClient.cpp:1616-2023 | Over every run, each call's flush promise and callback are completed at most once, and the promise exactly once when neither an unlocked window nor the C layer owns its container any more. |
| ContinuationRuns.FlushCompleted | eventstream_rpc/source/EventStreamClient.cpp:1803-1809 | An open container is completed with what the C layer reports, with the error of its refused or failed call, or with CONTINUATION_CLOSED. |
| ContinuationRuns.SubmissionAccepted | eventstream_rpc/source/EventStreamClient.cpp:1777-1782 | A call whose message is accepted leaves its container to the C layer. |
| ContinuationRuns.SubmissionFailed | eventstream_rpc/source/EventStreamClient.cpp:1883-1900 | A call that fails owns its container with CRT_ERROR and the C layer's code. |
| ContinuationRuns.CloseGoesAhead | eventstream_rpc/source/EventStreamClient.cpp:1922-1959 | In every reachable state with an activation pending or the stream open, a Close goes ahead and a terminate message may be accepted. |
| ContinuationRuns.NothingIsPromised | eventstream_rpc/source/EventStreamClient.cpp:1616-2274 | The C layer may answer either way at each of its steps; Close may be called in any state, ShutDown whenever no Activate is in flight. |
| ContinuationDrain.DrainsInTime | eventstream_rpc/source/EventStreamClient.cpp:1784-1983 | From every reachable state, whatever the C layer answers, returning from C calls, reporting flushes and completing containers ends within as many steps as there is work, and when no such step is left every promise has exactly one value. |
| ContinuationDrain.EveryFutureCompletes | eventstream_rpc/source/EventStreamClient.cpp:1803-1809 | From every reachable state there is such a run that completes every future with exactly one value. |
| ContinuationRuns.ResultDeliveredOnce | eventstream_rpc/source/EventStreamClient.cpp:1721-1793 | Over every run, retries included, the C layer accepts at most one activation, the result callback runs at most once and only for an accepted one, and exactly once for it by the time the stream has closed or ShutDown has run. |
| ContinuationRuns.TokenReleasedOnce | eventstream_rpc/source/EventStreamClient.cpp:1994-2022 | Over every run, the C continuation is gone exactly in Closed, and has then been handed over for release exactly once (never if there was none). |
| ContinuationRuns.SendAfterResponse | eventstream_rpc/source/EventStreamClient.cpp:1829-1863 | A stream message is handed to the C layer only after an accepted activation got an initial response without the terminate flag. |
| ContinuationRuns.ClosedIsFinal | eventstream_rpc/source/EventStreamClient.cpp:1967-1971 | No run leaves Closed, not by any rollback either. |
| ContinuationRuns.ShutDownIsSilent | eventstream_rpc/source/EventStreamClient.cpp:1616-1690 | Once the handler is cleared no message reaches it; once ShutDown's locked section has run, no result callback is invoked and the activation slots stay empty, whatever follows. |
| ContinuationRuns.CoherentIffClean | eventstream_rpc/source/EventStreamClient.cpp:1784-1793 | Over every run, the state says PendingClose exactly while an end-of-stream is in flight or accepted, or a response with the terminate flag was taken as the activation's, if and only if no failing Activate finds its PendingActivate overwritten. This is exact for that agreement only. |
| ContinuationRuns.TerminatedOnce | eventstream_rpc/source/EventStreamClient.cpp:1922-1983 | In those runs the C layer accepts at most one empty terminate message, no two are in flight, and none is accepted or in flight once a response with the terminate flag has been taken as the activation's. |
| ContinuationRuns.FailedCloseRestores | eventstream_rpc/source/EventStreamClient.cpp:1961-1972 | In those runs a failing Close puts back exactly the state it saw, which is still the one the responses taken as the activation's call for, or leaves Closed. |
| ContinuationRuns.ShutDownReleases | eventstream_rpc/source/EventStreamClient.cpp:1645-1690 | Over every run in which ShutDown has run, the C continuation is released, or open with its closed callback still to come, if and only if no step of the run was a failing Close that found no activation accepted or in flight. |
| ContinuationRuns.StrandedExactly | eventstream_rpc/source/EventStreamClient.cpp:1961-1972 | Over every run, the continuation ends up stranded (no activation, not activatable, not released) if and only if one of the steps was such a failing Close. |
| ContinuationRuns.OverlapStrands | eventstream_rpc/source/EventStreamClient.cpp:1784-1793 | A concrete run: a Close inside the window of a failing Activate, failing after it, leaves the continuation in PendingActivate without an activation. |
| ContinuationRuns.StrandedForever | eventstream_rpc/source/EventStreamClient.cpp:1920-1944 | From there no run ever activates the continuation or releases it. |
| ContinuationMessages.LedgersAreTaken | eventstream_rpc/source/EventStreamClient.cpp:2175-2204 | What the system records of responses is exactly what OnMessage took as such among all messages that arrived. |
| ContinuationMessages.FirstMessageAnswers | eventstream_rpc/source/EventStreamClient.cpp:2173-2228 | Over every run, the first message of the stream gives the activation its answer, and no later step changes it, exactly when it finds PendingActivate before ShutDown's section; otherwise it gives no answer. |
| ContinuationMessages.FirstMessageExactly | eventstream_rpc/source/EventStreamClient.cpp:1918-1972 | In runs without an overwritten rollback, the activation is answered by the first message if and only if no Close is in flight or accepted and ShutDown's section has not run when it arrives; refused and rolled back Closes do no harm. |
| ContinuationMessages.LifeOfAContinuation | eventstream_rpc/source/EventStreamClient.cpp:1702-2023 | A run from Activate through the response, a message sent and a Close to the closed callback, with the one answer, one terminate message and one release. |
| ContinuationMessages.ResponseMissed | eventstream_rpc/source/EventStreamClient.cpp:2173-2205 | A run in which the response arrives in a Close's window, goes to the stream handler, and any later message answers the activation after the Close failed. |
| ContinuationMessages.NoTerminateAfterEnd | eventstream_rpc/source/EventStreamClient.cpp:1922-1983 | From every reachable state no response has opened yet: once a response carrying the terminate flag has arrived, no run whatever has a further terminate message accepted if and only if no Close is in flight at its arrival. |
| ContinuationMessages.TerminateAfterMissedEnd | eventstream_rpc/source/EventStreamClient.cpp:1922-1983 | A run in which a terminate message is accepted after a response that carried the terminate flag. |
| ContinuationMessages.FailedCloseAndArrivals | eventstream_rpc/source/EventStreamClient.cpp:1961-1972 | In runs without an overwritten rollback, a failing Close goes back to Activated exactly when a response arrived while no Close was in flight; so it goes back to the state the arrivals call for if and only if no response arrived or one arrived at such a time. |
| Continuation.ClientContinuationImpl.constructor | eventstream_rpc/source/EventStreamClient.cpp:1526-1552 | A continuation starts in None, or in Closed when there was no connection or the C layer made none. |
| Continuation.ClientContinuationImpl.BeginActivate | eventstream_rpc/source/EventStreamClient.cpp:1721-1760 | Activation goes ahead exactly in None; the container's owner is then the call, and otherwise the call fails with the error written out for each state; the fatal default is unreachable. |
| Continuation.ClientContinuationImpl.RollBackActivate | eventstream_rpc/source/EventStreamClient.cpp:1784-1793 | The rollback restores None and empties both activation slots; the call owns its container and fails with the C layer's error. |
| Continuation.ClientContinuationImpl.BeginSend | eventstream_rpc/source/EventStreamClient.cpp:1828-1863 | Sending goes ahead exactly in Activated, then with an accepted activation that was answered, and otherwise fails with the error written out for each state; nothing shared changes; the fatal default is unreachable. |
| Continuation.ClientContinuationImpl.BeginClose | eventstream_rpc/source/EventStreamClient.cpp:1918-1944 | Close goes ahead exactly from PendingActivate and Activated, with the state it saw remembered, and otherwise fails with the error written out for each case. |
| Continuation.ClientContinuationImpl.RollBackClose | eventstream_rpc/source/EventStreamClient.cpp:1961-1972 | The rollback restores the remembered state unless the continuation is Closed. |
| Continuation.ClientContinuationImpl.OnClosed | eventstream_rpc/source/EventStreamClient.cpp:1986-2023 | The stream ends in Closed with everything moved out, and exactly one answer has been given by then. |
| Continuation.ClientContinuationImpl.OnMessage | eventstream_rpc/source/EventStreamClient.cpp:2166-2228 | Which messages count as responses, the one answer given in terms of the result, the state that follows, and when a Close is due. |
| Continuation.ClientContinuationImpl.DeliverToHandler | eventstream_rpc/source/EventStreamClient.cpp:2230-2268 | One handler call exactly while ShutDown has not begun, with the shape, error or status of the message; the fatal default is unreachable. |
| Continuation.ClientContinuationImpl.ClearStreamHandler | eventstream_rpc/source/EventStreamClient.cpp:1623-1643 | The handler is cleared if the continuation has an event loop and otherwise kept; the invariant holds. |
| Continuation.ClientContinuationImpl.ShutDown | eventstream_rpc/source/EventStreamClient.cpp:1645-1690 | Everything stored is moved out, a never activated continuation is released, and the answers given equal the activations accepted. |
| LockDiscipline.CallTraceNeutral | eventstream_rpc/source/EventStreamClient.cpp:1616-2023 | Every public call, OnClosed and a flush callback, with C callbacks made inside C calls, the handler's destructor under its lock and user code nested to any depth: shared and container locks are taken and user code runs with at most handler locks held, a handler lock is taken under another lock only by ShutDown and only under another handler's, and every lock taken is given back. |
| LockDiscipline.MessageTraceNeutral | eventstream_rpc/source/EventStreamClient.cpp:2166-2274 | The same for OnMessage, which takes its own handler lock with no lock held and deserialises under the shared lock. |
| LockDiscipline.TracesSpelledOut | eventstream_rpc/source/EventStreamClient.cpp:1616-2023 | The traces of the calls written out, with user code that calls nothing. |
| LockDiscipline.MessagesSpelledOut | eventstream_rpc/source/EventStreamClient.cpp:2166-2274 | The same for OnMessage. |
| Deadlocks.MiddleCrosses | eventstream_rpc/source/EventStreamClient.cpp:1623-1643 | With every continuation shut down at most once, among any number of threads at any point, a thread in the middle of a chain of waiting threads is a stream event whose handler is shutting down a continuation of another event loop. |
| Deadlocks.RingCrosses | eventstream_rpc/source/EventStreamClient.cpp:1500-1511 | Threads waiting for each other in a ring are all such events, each shutting down the continuation of the next; user threads, nested destructors and all other callbacks are in no ring. |
| Deadlocks.NoDeadlock | eventstream_rpc/source/EventStreamClient.cpp:1500-1511 | Any number of threads without such an event, under any schedule: no thread is in a ring, and somebody can proceed until everybody has finished. |
| Deadlocks.CrossingDeadlocks | eventstream_rpc/source/EventStreamClient.cpp:1625-1640 | For every such event that does not shut down its own continuation, an event on another loop and a schedule after which the two wait for each other and nobody can proceed, no continuation being shut down twice. |
| Deadlocks.DeadlockExactly | eventstream_rpc/source/EventStreamClient.cpp:1500-1511 | A call or callback can be brought into a ring of waiting threads, by some other threads and some schedule, if and only if it is such an event. |
| Headers.EventStreamHeader.constructor | eventstream_rpc/source/EventStreamClient.cpp:413-434 | The header holds the name cut to the limit and the value, in a buffer of its own. |
| Headers.EventStreamHeader.FromHandle | eventstream_rpc/source/EventStreamClient.cpp:391-411 | A header made from one of the C layer holds its name and type and, for strings and byte buffers, its value in a buffer of its own, and otherwise the value in place. |
| Headers.EventStreamHeader.Copy | eventstream_rpc/source/EventStreamClient.cpp:442-449 | A copy of any header has its name, type and buffer contents in a buffer of its own, so it holds the name and string or byte buffer the original held, as does any chain of copies; a value in the handle is replaced. |
| Headers.EventStreamHeader.Assign | eventstream_rpc/source/EventStreamClient.cpp:451-467 | The same for assignment; self-assignment changes nothing. |
| Headers.EventStreamHeader.GetHeaderName | eventstream_rpc/source/EventStreamClient.cpp:482-485 | The original name when within the limit, otherwise its first 127 characters. |
| Headers.EventStreamHeader.GetValueAsString | eventstream_rpc/source/EventStreamClient.cpp:487-499 | False for anything but a string; otherwise the original value below 65536 bytes and its prefix of length modulo 65536 above. |
| Headers.ConstructConnectMessage | eventstream_rpc/source/EventStreamClient.cpp:1014-1047 | Looking a name up in the CONNECT message finds the amendment's first header of that name, and the version header only when the amendment has none; the payload is the amendment's. |
| Shapes.MqttRoundTrip | greengrass_ipc/source/GreengrassCoreIpcModel.cpp:504-613 | Loading a serialised MQTTMessage gives back its normal form, with empty blobs absent and the user properties in order. |
| Shapes.MqttDocuments | greengrass_ipc/source/GreengrassCoreIpcModel.cpp:504-613 | Serialising again gives the same document, and two messages have the same document exactly when their normal forms are equal. |
| ShapeDocuments.MqttDocument | greengrass_ipc/source/GreengrassCoreIpcModel.cpp:504-557 | The document of any message, member by member under its key, with no member for an empty blob and no other members. |
| ShapeDocuments.MqttLoaded | greengrass_ipc/source/GreengrassCoreIpcModel.cpp:559-613 | What a message holds after any document was loaded over it: absent members leave it alone, so do blobs that are absent or read as empty, and any other blob is what it was encoded from. |
| ShapeDocuments.WrittenOver | greengrass_ipc/source/GreengrassCoreIpcModel.cpp:504-557 | Writing into an object replaces the members of the same name and keeps the others. |
| ShapeDocuments.UserPropertyDocument | greengrass_ipc/source/GreengrassCoreIpcModel.cpp:15-37 | The document of a user property, and what any document is loaded as. |
| Shapes.UserPropertiesRoundTrip | greengrass_ipc/source/GreengrassCoreIpcModel.cpp:15-37 | A list of user properties comes back entry by entry. |
| Shapes.JsonMessageRoundTrip | greengrass_ipc/source/GreengrassCoreIpcModel.cpp:448-474 | Any JsonMessage comes back unchanged. |
| Shapes.BinaryMessageRoundTrip | greengrass_ipc/source/GreengrassCoreIpcModel.cpp:384-418 | A BinaryMessage comes back in normal form, with the same document when serialised again. |
| ShapeDocuments.JsonMessageDocument | greengrass_ipc/source/GreengrassCoreIpcModel.cpp:448-460 | The document of a JsonMessage, member by member. |
| ShapeDocuments.JsonMessageLoaded | greengrass_ipc/source/GreengrassCoreIpcModel.cpp:462-474 | What any document is loaded as. |
| ShapeDocuments.BinaryMessageDocument | greengrass_ipc/source/GreengrassCoreIpcModel.cpp:384-399 | The document of a BinaryMessage, member by member, without one for an empty blob. |
| ShapeDocuments.BinaryMessageLoaded | greengrass_ipc/source/GreengrassCoreIpcModel.cpp:401-418 | What any document is loaded as; an empty message text gives none. |
| Shapes.RunWithRoundTrip | greengrass_ipc/source/GreengrassCoreIpcModel.cpp:1395-1429 | A RunWithInfo with its nested limits comes back unchanged. |
| Shapes.MapsRoundTrip | greengrass_ipc/source/GreengrassCoreIpcModel.cpp:6382-6505 | The three maps of a deployment request come back with all keys and values. |
| Shapes.DeploymentRoundTrip | greengrass_ipc/source/GreengrassCoreIpcModel.cpp:6376-6521 | Any CreateLocalDeploymentRequest comes back unchanged. |
| ShapeDocuments.DeploymentDocument | greengrass_ipc/source/GreengrassCoreIpcModel.cpp:6376-6443 | The document of a request, member by member under its key, and no other members. |
| ShapeDocuments.DeploymentLoaded | greengrass_ipc/source/GreengrassCoreIpcModel.cpp:6445-6521 | What a request holds after any document was loaded over it. |
| ShapeDocuments.EntriesDocument | greengrass_ipc/source/GreengrassCoreIpcModel.cpp:6382-6430 | The entries of its maps and lists. |
| ShapeDocuments.EntriesLoaded | greengrass_ipc/source/GreengrassCoreIpcModel.cpp:6454-6505 | And what any object or array is loaded as, entry by entry. |
| ShapeDocuments.RunWithDocument | greengrass_ipc/source/GreengrassCoreIpcModel.cpp:1395-1411 | The document of a RunWithInfo, member by member. |
| ShapeDocuments.RunWithLoaded | greengrass_ipc/source/GreengrassCoreIpcModel.cpp:1413-1429 | What any document is loaded as. |
| ShapeDocuments.LimitsDocument | greengrass_ipc/source/GreengrassCoreIpcModel.cpp:273-297 | The document of the limits, and what any document is loaded as. |
| Base64.Inverse | greengrass_ipc/source/GreengrassCoreIpcModel.cpp:510-572 | Decoding an encoded blob gives the blob back (section 4 of RFC 4648), which the round trips of all blob members rest on. |
| ShapeCodec.SerializeUserProperties | greengrass_ipc/source/GreengrassCoreIpcModel.cpp:521-533 | The loop writes the list in order. |
| ShapeCodec.SerializeMQTTMessage | greengrass_ipc/source/GreengrassCoreIpcModel.cpp:504-557 | Writing the members one by one into any object gives the document of the specification. |
| ShapeCodec.LoadMQTTMessage | greengrass_ipc/source/GreengrassCoreIpcModel.cpp:559-613 | Reading member by member into any given message gives the loaded message of the specification. |
| ShapeCodec.LoadUserProperties | greengrass_ipc/source/GreengrassCoreIpcModel.cpp:577-587 | The loop reads the list in order. |
| ShapeCodec.SerializeRunWithMap | greengrass_ipc/source/GreengrassCoreIpcModel.cpp:6419-6430 | The loop writes every entry of the map, in whatever order it meets them. |
| ShapeCodec.LoadRunWithMap | greengrass_ipc/source/GreengrassCoreIpcModel.cpp:6492-6505 | The loop reads every entry of the object, in whatever order it meets them. |
| ShapeCodec.SerializeCreateLocalDeploymentRequest | greengrass_ipc/source/GreengrassCoreIpcModel.cpp:6376-6443 | Lists, maps and nested records are written to the document of the specification. |
| ShapeCodec.LoadCreateLocalDeploymentRequest | greengrass_ipc/source/GreengrassCoreIpcModel.cpp:6445-6521 | Lists, maps and nested records are read to the request of the specification. |
| ShapeCodec.SerializeMessageUnion | greengrass_ipc/source/GreengrassCoreIpcModel.cpp:1585-1599 | At most the chosen member is added to the object. |
| ShapeCodec.LoadMessageUnion | greengrass_ipc/source/GreengrassCoreIpcModel.cpp:1601-1619 | The member present, jsonMessage first, is loaded and becomes the chosen one; a stale member stays. |
| ShapeCodec.SerializeSecretValue | greengrass_ipc/source/GreengrassCoreIpcModel.cpp:2175-2188 | At most the chosen member is added to the object, none for an empty binary. |
| ShapeCodec.LoadSecretValue | greengrass_ipc/source/GreengrassCoreIpcModel.cpp:2190-2206 | The member present, secretString first, becomes the chosen one; an empty secretBinary keeps the old bytes. |
| Unions.LastAssignmentShows | greengrass_ipc/source/GreengrassCoreIpcModel.cpp:1621-1635 | After any sequence of assignments a union shows what the last source with a chosen member showed, despite stale members. |
| Unions.SerializedUnionAfterAssignments | greengrass_ipc/source/GreengrassCoreIpcModel.cpp:2096-2145 | After any sequence of assignments the serialised union is that of the last source with a chosen member and has at most one member. |
| Unions.MessageUnionRoundTrip | greengrass_ipc/source/GreengrassCoreIpcModel.cpp:1585-1619 | A message union comes back in normal form and serialises to the same document again. |
| Unions.SecretRoundTrip | greengrass_ipc/source/GreengrassCoreIpcModel.cpp:2175-2206 | A secret comes back, except that one holding only an empty binary comes back unchosen; it serialises to the same document again. |
| ShapeDocuments.MessageUnionDocument | greengrass_ipc/source/GreengrassCoreIpcModel.cpp:1585-1599 | The chosen member's document under its key, or nothing. |
| ShapeDocuments.MessageUnionLoaded | greengrass_ipc/source/GreengrassCoreIpcModel.cpp:1601-1619 | Loading any document takes jsonMessage first, then binaryMessage, and keeps all else. |
| ShapeDocuments.SecretDocument | greengrass_ipc/source/GreengrassCoreIpcModel.cpp:2175-2188 | The chosen member under its key; nothing for an empty binary. |
| ShapeDocuments.SecretLoaded | greengrass_ipc/source/GreengrassCoreIpcModel.cpp:2190-2206 | Loading any document takes secretString first, then secretBinary, whose empty text chooses it and keeps the old bytes. |
| ShapeDocuments.EmptySecretBinary | greengrass_ipc/source/GreengrassCoreIpcModel.cpp:2197-2205 | An empty secretBinary loaded into a blank secret shows nothing. |
| Unions.UnionObject.Assign | greengrass_ipc/source/GreengrassCoreIpcModel.cpp:2208-2221 | Assignment, from itself too, changes the tag and one member only, and shows what the source showed when that had a tag. |
| Topics.GetSegmentFromTopic | commands/source/IotCommandsClientV2.cpp:192-206 | The cursor loop returns the segment at that place of the split at slashes, and nothing when there is none, for every topic and index. |
| Topics.JoinSplit | commands/source/IotCommandsClientV2.cpp:192-206 | Joining the segments with slashes gives the topic back. |
| Topics.SplitJoin | commands/source/IotCommandsClientV2.cpp:192-206 | Splitting a join of slash-free segments gives the segments back. |
| Topics.InitModeledEvent | commands/source/IotCommandsClientV2.cpp:208-230 | An event is delivered exactly when segment 5 exists and is not empty, and carries that segment, the payload and the optional properties. |
| Topics.StreamDelivers | commands/source/IotCommandsClientV2.cpp:278-318 | For a slash-free device, the topics matching a stream's filter are exactly the request topics of its kind and device, and each is delivered with the execution the + stood for and its payload, unless that is empty. |
| Topics.RequestReachesStream | commands/source/IotCommandsClientV2.cpp:278-318 | A request topic matches the filter of its stream. |
| Topics.ResponseTopicsInjective | commands/source/IotCommandsClientV2.cpp:130-163 | For slash-free identifiers the accepted and rejected topics are injective in outcome, type, device and execution. |
| Topics.ResponseTopicsEqual | commands/source/IotCommandsClientV2.cpp:130-163 | For identifiers of any shape, two response topics are equal if and only if outcome, type and the text around /executions/ are. |
| Topics.ResponseTopicsCollide | commands/source/IotCommandsClientV2.cpp:130-163 | Two different executions, with slashes in the identifiers, that share a response topic. |
| Topics.TopicsSpelledOut | commands/source/IotCommandsClientV2.cpp:121-163 | The publish and response topics and the three stream filters in full, for each device type. |
| Topics.UpdateCommandExecutionResponseHandler | commands/source/IotCommandsClientV2.cpp:76-119 | Submission error, unparsable payload, success, modeled error and unknown topic, each with the record its document holds. |
| Topics.RecordsOfDocuments | commands/source/V2ErrorResponse.cpp:13-32 | Which member of the document goes to which field of the modeled error and of the response. |
| Topics.ResponsesAttributed | commands/source/IotCommandsClientV2.cpp:76-119 | For slash-free identifiers a request takes a response as its own exactly when it was published for its type, device and execution, and as a success exactly when accepted. |
| Topics.ResponsesAttributedExactly | commands/source/IotCommandsClientV2.cpp:76-163 | For identifiers of any shape, the exact condition for that. |

## Left out

- Connection.ClientConnectionImpl.OnConnectAck: PING and unknown protocol messages call the lifecycle handler directly,
  outside the callback context; they are not modelled, so the silence after Shutdown does not speak of them.
- ConnectionRuns.ConnectFlushAtMostOnce: a CONNECT that could not be sent drops its flush callback, as the code does, so
  the statement is at most once there.
- ContinuationRuns.ShutDownReleases: the Close that ShutDown makes last is one of the steps that may follow, not part of
  its locked section, and the local acquire and release around each C call on a continuation are not counted.
- Deadlocks.NoDeadlock: the locks of the C layer and of user code, and m_sharedStateLock of the connection, under which
  no callback runs, are not part of the traces. A result callback destroyed by Activate's rollback, under the shared
  lock, is taken to lock nothing itself, as the generated operations' callbacks do, which hold only a shared promise.
- Headers.EventStreamHeader.Copy: the move operations are not modelled, nor is the memory of amendments, whose headers
  are values. Copying an absent buffer is taken to give an empty one.
- Headers.EventStreamHeader.GetHeaderName: the name limit of 127 is a constant of the C library, which is not part of
  this model.
- Topics.GetSegmentFromTopic: the cursor step itself is a C library function, modelled by what it does for a slash.
- Topics.StreamDelivers: a device identifier with slashes makes a filter of another depth and is not covered; the
  response side is (`Topics.ResponsesAttributedExactly`). The rule for topics starting with $ in section 4.7.2 of
  MQTT 5.0 does not come into play, as the filters start with $ too.
- Topics.UpdateCommandExecutionResponseHandler: the modeled error's code is kept by its name, as the conversion to the
  enum rests on a hash function that is not part of this model.
- Shapes.MqttRoundTrip: JSON is an exact tree; text parsing, the number format of the JSON library (64-bit integers,
  doubles, here unbounded integers and reals) and what its accessors do on members of another kind, beyond returning
  empty values, are not modelled.
- ShapeDocuments.MqttLoaded: what a blob text that is not well-formed Base64 is decoded to is left to the library.
- Shapes.JsonMessageRoundTrip: the message is taken to be a JSON object, as the setter's type says.
- ShapeCodec.LoadMQTTMessage: records are loaded as values and returned; only the unions are loaded in place.
- Unions.UnionObject.Assign: m_chosenMember is uninitialised in the source; the model has a third value for it.
  SystemTime members of other shapes, and the remaining shapes, operations and enum conversions, repeat these patterns.
- NewStream, IsOpen, logging, StatusToString, the task that drops the last self reference and the one that releases a
  continuation: small or plumbing.
- The identity, jobs, shadow, discovery and device defender clients: thin wrappers over MQTT or C calls.
