# ThinWS connection and request core in Dafny

This project models the core of ThinWS-Android, an RPC layer for Android that runs over one WebSocket connection:

- **Envelope mapping** (`Message.kt`). The `Message` record, its type constants, and `MessageMapper.mapMessage`, which builds a message from a parsed JSON object.
- **Transport** (`WebSocketTransport.kt`). The closed/connected flags, the held socket, the handler task queue, the delayed reconnect jobs, the `RetryStrategy` backoff and the OkHttp listener callbacks. Notifications to the transport's listener are kept in an event log.
- **Client** (`ThinWS.kt`). The `mSends` registry of pending requests: each request's proxy arms one timeout. The client also correlates responses, keeps its own closed/connected flags and forwards transport notices to the owner's listener.

Each stateful component is specified by a state datatype and pure step functions: `TransportState` with `OnOpenStep`, `CloseStep`, …, and `ClientState` with `RequestStep`, `HandleResponseStep`, …. The properties are lemmas about those functions: one step, and every run of steps from a fresh object. The classes `Transport.WebSocketTransport`, `Backoff.RetryStrategy` and `ThinWSClient.ThinWS` have the source's fields and update them in place. Each method of `WebSocketTransport` and `ThinWS` is proved to leave `State() == Step(old(State()))` and to keep the class invariant `Valid()`. `RetryStrategy` has no step function and no invariant: its methods state the new `retryCount` directly, and its getter is the function `Interval`.

Environment and foreign code:

- OkHttp's callbacks are explicit steps: socket opened, closed, failed, text frame.
- The Android `Handler` looper runs the oldest posted task (`RunPosted`) or the oldest delayed reconnect job (`RunReconnectJob`). The order between those two is left free.
- The main-looper timeout of a request proxy fires as `FireTimeout(reg)`. It is enabled only while that proxy's timer is armed.
- Gson encoding and the org.json parser are parameters: `encode: Message -> string` and `parse: string -> Option<JsonObject>`.
- `UUID.randomUUID()` of the handshake is a caller-supplied `freshId`.
- The computed request timeout is a caller-supplied positive `timeout`.

Where the code and its documentation disagree, the model follows the code:

- **Events on failure.** `onFailure` reports `onFail` when the transport is connected and `onDisconnected` otherwise. The interface comments say the opposite.
- **Retry reset.** `reset` sets the retry count to 0, not 1. After a successful open, the next failure waits 1000 ms, not 2000 ms, and 11 reconnect jobs may follow, not 10.
- **Close and pending requests.** `ThinWS.close()` only forwards to the transport. It does not set the client's closed flag and does not reject pending requests. Those requests are completed by their own timers, which keep firing after close.
- **Close and reconnect jobs.** `WebSocketTransport.close()` does not cancel scheduled reconnect jobs. Such a job returns early once the transport is closed.
- **No close event.** An explicit `close()` emits no `onClose`. The socket's later `onClosed` callback finds the transport already closed.
- **Duplicate ids.** A request whose id is already pending replaces the registry entry. The replaced proxy keeps its timer. When that timer fires, it removes whatever entry holds the id and rejects its own handler.
- **Bad frames.** A frame that `mapMessage` rejects throws out of `onMessage`. It is not dropped and logged. The model returns `Thrown(error)` and changes no state.
- **Listener callbacks never called.** `ThinWS` never calls its listener's `onMessage` or `onRequest`.

Listener calls from the transport into the client are delivered after the transport callback finishes (`TransportThenDispatch`, `ThinWS.Deliver`). In the source, `onOpen` and the give-up branch of `onFailure` call the listener before they reset the retry count (WebSocketTransport.kt lines 181/183 and 222/224); `onClosed` resets first (lines 193/195). The order makes no difference. The only call back into the transport is the handshake in `onOpen`, and it only reads `mClosed` and posts a task. The count reset does not touch either.

## Model

| member | source | states |
|---|---|---|
| Messages.MapMessage | thinws/src/main/java/clover/studio/thinws/Message.kt:22-58 | Empty text is rejected with `EmptyInput`. Text the parser does not turn into an object is rejected with `NotAnObject`. A success implies that the object has keys `type` and `messageID`. |
| Messages.MapMessageSucceedsIff | thinws/src/main/java/clover/studio/thinws/Message.kt:24-49 | Mapping succeeds exactly when the text is non-empty, parses to an object, `type` and `messageID` are strings, and each present optional key has the right kind (string, string, object). |
| Messages.RequiredKeys | thinws/src/main/java/clover/studio/thinws/Message.kt:29-43 | A missing `type` fails with `MissingKey("type")`. A missing `messageID` fails with `MissingKey("messageID")` even when everything else is well-formed. |
| Messages.MappedFields | thinws/src/main/java/clover/studio/thinws/Message.kt:29-57 | Each of the five fields equals the object's value for its key. `roomID`, `connectionID` and `payload` are null exactly when their key is absent. |
| Messages.MapEnvelopeObject | thinws/src/main/java/clover/studio/thinws/Message.kt:11-57 | Round trip: mapping the object that holds exactly an envelope's non-null fields gives that envelope back. |
| Messages.EnvelopeObjectOfMapped | thinws/src/main/java/clover/studio/thinws/Message.kt:29-57 | Opposite direction: turning a mapped message back into an object gives the input object without its non-envelope keys. |
| Backoff.IntervalBounds | thinws/src/main/java/clover/studio/thinws/WebSocketTransport.kt:77-86 | The interval is -1 exactly when `retryCount > retries`. Otherwise it is `min(minTimeout * factor^retryCount, maxTimeout)` and lies in `[minTimeout, maxTimeout]`. Requires `factor >= 1` and `0 <= minTimeout <= maxTimeout`. |
| Backoff.DefaultSchedule | thinws/src/main/java/clover/studio/thinws/WebSocketTransport.kt:63-86 | With (10, 2, 1000, 8000): count 0 gives 1000, 1 gives 2000, 2 gives 4000, 3 to 10 give 8000, and above 10 gives -1. |
| Backoff.GivesUpAfterRetries | thinws/src/main/java/clover/studio/thinws/WebSocketTransport.kt:72-92 | The interval alone: from the start value 1, the interval after k increments is -1 exactly when k >= 10; from the reset value 0, exactly when k >= 11. The same bound on transport runs is `Transport.GivesUpAfterTenJobs`. |
| Backoff.RetryStrategy.constructor | thinws/src/main/java/clover/studio/thinws/WebSocketTransport.kt:66-72 | Stores the four parameters. The retry count starts at 1. |
| Backoff.RetryStrategy.Retried | thinws/src/main/java/clover/studio/thinws/WebSocketTransport.kt:73-75 | The retry count grows by exactly 1. |
| Backoff.RetryStrategy.Reset | thinws/src/main/java/clover/studio/thinws/WebSocketTransport.kt:88-92 | The retry count is 0 afterwards. |
| Transport.ClosedTransportIsInert | thinws/src/main/java/clover/studio/thinws/WebSocketTransport.kt:120-237 | On a closed transport, `onOpen`, `onClosed`, `onFailure`, `onMessage` and `close` change nothing. The reconnect job only leaves the queue. A posted send only leaves the queue. `sendMessage` fails with "transport closed" and queues nothing. |
| Transport.RunAllClosedSendsNothing | thinws/src/main/java/clover/studio/thinws/WebSocketTransport.kt:136-143 | Tasks that run after close add only `Dial` operations to the OkHttp log. No frame is sent. The socket can only be dropped. |
| Transport.CloseIdempotent | thinws/src/main/java/clover/studio/thinws/WebSocketTransport.kt:147-166 | Applying close twice equals applying it once. Afterwards the transport is closed and no notice was emitted. If it was open before, no socket is held and the queue is empty. |
| Transport.CloseSendsNoFrame | thinws/src/main/java/clover/studio/thinws/WebSocketTransport.kt:147-166 | Closing an open transport only appends dials (from queued `newWebSocket` tasks) and a socket close to the OkHttp log. |
| Transport.FailurePolicy | thinws/src/main/java/clover/studio/thinws/WebSocketTransport.kt:203-226 | While retries remain, `onFailure` stays open, schedules one job whose delay is in [1000, 8000], and emits `onFail` if connected and `onDisconnected` otherwise. Once retries are exhausted, it closes, emits `onClose` and resets the count to 0. |
| Transport.OpenResetsRetries | thinws/src/main/java/clover/studio/thinws/WebSocketTransport.kt:173-184 | `onOpen` on an open transport stores the socket, sets connected, emits `onOpen` and sets the retry count to 0. |
| Transport.ApplyKeepsInv | thinws/src/main/java/clover/studio/thinws/WebSocketTransport.kt:186-226 | Every step keeps invariant `Inv`: a close notice is the last notice and implies closed. A step appends at most one notice and never emits on a closed transport. |
| Transport.RunKeepsInv | thinws/src/main/java/clover/studio/thinws/WebSocketTransport.kt:172-237 | Over any run: the invariant holds, notices only grow, and a closed transport stays closed and silent. |
| Transport.AtMostOneCloseNotice | thinws/src/main/java/clover/studio/thinws/WebSocketTransport.kt:186-226 | From a fresh transport, every run emits `onClose` at most once and nothing after it. |
| Transport.RunAppend | thinws/src/main/java/clover/studio/thinws/WebSocketTransport.kt:120-237 | Running two input sequences one after the other ends in the same state as running their concatenation. |
| Transport.ClosedRunSendsNoFrame | thinws/src/main/java/clover/studio/thinws/WebSocketTransport.kt:136-160 | Once the transport is closed, every run keeps it closed and keeps the wire so far as a prefix. Every later wire entry is neither a text frame nor a close frame. |
| Transport.FailRetryCounts | thinws/src/main/java/clover/studio/thinws/WebSocketTransport.kt:112-226 | While the strategy still allows the k failures, failure-then-reconnect-job repeated k times leaves the transport open. Each round adds exactly 1 to the retry count and leaves the number of pending jobs unchanged. |
| Transport.GivesUpAfterTenJobs | thinws/src/main/java/clover/studio/thinws/WebSocketTransport.kt:112-226 | After `connect`, the transport survives k <= 10 failure-and-job rounds with retry count 1 + k; the next failure closes it exactly when k == 10. After a successful open, the same holds for k <= 11 with count k, closing exactly when k == 11. |
| Transport.WebSocketTransport.constructor | thinws/src/main/java/clover/studio/thinws/WebSocketTransport.kt:17-64 | Creates the strategy (10, 2, 1000, 8000). The state is `Init()`: open, not connected, no socket, no listener, retry count 1. |
| Transport.WebSocketTransport.IsClosed | thinws/src/main/java/clover/studio/thinws/WebSocketTransport.kt:168-170 | Reports the closed flag. No step clears that flag (`RunKeepsInv`). |
| Transport.WebSocketTransport.Connect | thinws/src/main/java/clover/studio/thinws/WebSocketTransport.kt:95-99 | The new state is `ConnectStep(old)`: the listener is set and one `newWebSocket` task is posted. |
| Transport.WebSocketTransport.RunPosted | thinws/src/main/java/clover/studio/thinws/WebSocketTransport.kt:101-143 | The new state is `RunPostedStep(old)`. The oldest task runs. `newWebSocket` drops the socket and dials. A send goes out only if the transport is still open and holds a socket. |
| Transport.WebSocketTransport.RunReconnectJob | thinws/src/main/java/clover/studio/thinws/WebSocketTransport.kt:118-127 | The new state is `RunJobStep(old)`. While the transport is open, the oldest reconnect job cancels calls, dials and then increments the retry count. |
| Transport.WebSocketTransport.SendMessage | thinws/src/main/java/clover/studio/thinws/WebSocketTransport.kt:133-145 | The new state and result are `SendMessageStep(old, m)`. A closed transport fails and queues nothing. Otherwise the encoded frame is posted and returned. |
| Transport.WebSocketTransport.Close | thinws/src/main/java/clover/studio/thinws/WebSocketTransport.kt:147-166 | The new state is `CloseStep(old)`. The flag is set first, then a loop runs every queued task, then any held socket gets close(1000, "bye") and is dropped. |
| Transport.WebSocketTransport.OnOpen | thinws/src/main/java/clover/studio/thinws/WebSocketTransport.kt:173-184 | The new state is `OnOpenStep(old, sock)`. The emitted notice is the one appended. |
| Transport.WebSocketTransport.OnClosed | thinws/src/main/java/clover/studio/thinws/WebSocketTransport.kt:186-197 | The new state is `OnClosedStep(old)`: closed, not connected, count 0, one `onClose`. An already closed transport is unchanged. |
| Transport.WebSocketTransport.OnFailure | thinws/src/main/java/clover/studio/thinws/WebSocketTransport.kt:203-226 | The new state is `OnFailureStep(old)`, with the interval taken from the strategy. |
| Transport.WebSocketTransport.OnMessage | thinws/src/main/java/clover/studio/thinws/WebSocketTransport.kt:228-237 | The new state and result are `OnMessageStep(old, text)`. A closed transport ignores the frame. A rejected frame throws with no state change. A mapped frame is delivered as `onMessage`. |
| ThinWSClient.UnmatchedResponseIsNoOp | thinws/src/main/java/clover/studio/thinws/ThinWS.kt:179-187 | A response whose id is not in `mSends` leaves the entire client state unchanged. |
| ThinWSClient.MatchedResponseCompletesOnce | thinws/src/main/java/clover/studio/thinws/ThinWS.kt:179-194 | A matched response removes only its key and disarms only that proxy's timer, which was armed and not yet completed. It appends exactly one completion: reject("error") for type `error`, resolve(response) otherwise. |
| ThinWSClient.TimeoutThenResponseDropped | thinws/src/main/java/clover/studio/thinws/ThinWS.kt:103-108 | A fired timeout appends reject("request timeout") and removes the id. A later response with that id changes nothing. |
| ThinWSClient.RequestRegisters | thinws/src/main/java/clover/studio/thinws/ThinWS.kt:86-95 | A closed transport throws and the client is unchanged. Otherwise the frame is queued first, then the id is bound to a new armed proxy. Completions and events are unchanged. |
| ThinWSClient.DuplicateIdOverwrites | thinws/src/main/java/clover/studio/thinws/ThinWS.kt:93-94 | Registering a pending id rebinds it to the new proxy. The old proxy stays armed and the map does not grow. |
| ThinWSClient.OpenSendsHandshake | thinws/src/main/java/clover/studio/thinws/ThinWS.kt:144-160 | On an open client and transport, a `connect` envelope with the client's connection id is queued, `onOpen` reaches the owner, and the registry is unchanged. |
| ThinWSClient.ClosedClientIgnoresCallbacks | thinws/src/main/java/clover/studio/thinws/ThinWS.kt:144-213 | Once the client is closed, every transport notice (open, fail, message, disconnected, close) leaves it unchanged. |
| ThinWSClient.CloseKeepsRegistry | thinws/src/main/java/clover/studio/thinws/ThinWS.kt:48-52 | `close()` closes the transport. The client's closed flag, registry, timers, completions and events are unchanged. A second close changes nothing. |
| ThinWSClient.CompleteKeepsRegistryInv | thinws/src/main/java/clover/studio/thinws/ThinWS.kt:103-125 | Removing an armed proxy's key, disarming it and recording its one completion keeps the registry invariant. |
| ThinWSClient.RequestKeepsRegistryInv | thinws/src/main/java/clover/studio/thinws/ThinWS.kt:86-95 | Registering a request, including one that overwrites an id, keeps the registry invariant. |
| ThinWSClient.DispatchKeepsInv | thinws/src/main/java/clover/studio/thinws/ThinWS.kt:144-213 | Every listener callback keeps the client invariant and touches no transport notice. It appends at most one owner event and does nothing on a closed client. |
| ThinWSClient.ApplyClientKeepsInv | thinws/src/main/java/clover/studio/thinws/ThinWS.kt:86-213 | Every client step keeps the invariant and appends at most one owner event. A closed client stays closed and silent. Completions only grow. |
| ThinWSClient.RunClientKeepsInv | thinws/src/main/java/clover/studio/thinws/ThinWS.kt:86-213 | The same holds over any run of steps. |
| ThinWSClient.CompletedExactlyOnce | thinws/src/main/java/clover/studio/thinws/ThinWS.kt:97-194 | Under the invariant, a proxy's handler has been called 0 times while its timer is armed, and exactly once after. |
| ThinWSClient.InitSatisfiesInv | thinws/src/main/java/clover/studio/thinws/ThinWS.kt:42-46 | A new client satisfies the invariant. |
| ThinWSClient.ClientLifetime | thinws/src/main/java/clover/studio/thinws/ThinWS.kt:97-213 | For any run from a new client: the owner hears `onClose` at most once. Every proxy is completed at most once, and exactly once when its timer is gone. |
| ThinWSClient.ThinWS.constructor | thinws/src/main/java/clover/studio/thinws/ThinWS.kt:11-46 | Creates the transport and calls `connect`. The state is `ClientInit()`. |
| ThinWSClient.ThinWS.Close | thinws/src/main/java/clover/studio/thinws/ThinWS.kt:48-52 | The new state is `ClientCloseStep(old)`: `transport.close()` is called only if the transport is still open. |
| ThinWSClient.ThinWS.Request | thinws/src/main/java/clover/studio/thinws/ThinWS.kt:86-95 | The new state and result are `RequestStep(old, m, timeout)`. |
| ThinWSClient.ThinWS.FireTimeout | thinws/src/main/java/clover/studio/thinws/ThinWS.kt:103-108 | Enabled only for an armed proxy. The new state is `FireTimeoutStep(old, reg)`. |
| ThinWSClient.ThinWS.HandleResponse | thinws/src/main/java/clover/studio/thinws/ThinWS.kt:179-194 | The new state is `HandleResponseStep(old, response)`. |
| ThinWSClient.ThinWS.OnOpen | thinws/src/main/java/clover/studio/thinws/ThinWS.kt:144-160 | The new state is `ClientOnOpenStep(old, freshId)`: connected, the handshake sent, then `onOpen`. A throwing send skips the notification. |
| ThinWSClient.ThinWS.OnFail | thinws/src/main/java/clover/studio/thinws/ThinWS.kt:162-169 | The new state is `ClientOnFailStep(old)`. |
| ThinWSClient.ThinWS.OnMessage | thinws/src/main/java/clover/studio/thinws/ThinWS.kt:171-177 | The new state is `ClientOnMessageStep(old, m)`: `handleResponse` runs only while the client is open. |
| ThinWSClient.ThinWS.OnDisconnected | thinws/src/main/java/clover/studio/thinws/ThinWS.kt:196-203 | The new state is `ClientOnDisconnectedStep(old)`. |
| ThinWSClient.ThinWS.OnClose | thinws/src/main/java/clover/studio/thinws/ThinWS.kt:205-213 | The new state is `ClientOnCloseStep(old)`: closed, not connected, one `onClose`. |
| ThinWSClient.ThinWS.Deliver | thinws/src/main/java/clover/studio/thinws/WebSocketTransport.kt:21-32 | The transport's listener call reaches the matching client callback: the new state is `Dispatch(old, n)`. |
| ThinWSClient.ThinWS.SocketOpened | thinws/src/main/java/clover/studio/thinws/WebSocketTransport.kt:173-184 | OkHttp's `onOpen` runs the transport callback and delivers the notice it emitted to the client. |
| ThinWSClient.ThinWS.SocketClosed | thinws/src/main/java/clover/studio/thinws/WebSocketTransport.kt:186-197 | The same for `onClosed`. |
| ThinWSClient.ThinWS.SocketFailed | thinws/src/main/java/clover/studio/thinws/WebSocketTransport.kt:203-226 | The same for `onFailure`. |
| ThinWSClient.ThinWS.SocketText | thinws/src/main/java/clover/studio/thinws/WebSocketTransport.kt:228-237 | The same for a text frame. The result says whether the frame was ignored, threw, or was delivered. |
| ThinWSClient.ThinWS.RunPosted | thinws/src/main/java/clover/studio/thinws/WebSocketTransport.kt:136-143 | The transport's handler runs its oldest task. The client's own fields do not change. |
| ThinWSClient.ThinWS.RunReconnectJob | thinws/src/main/java/clover/studio/thinws/WebSocketTransport.kt:118-127 | The transport's oldest reconnect job runs. The client's own fields do not change. |

## Left out

- `MainActivity.kt`: the demo UI.
- `unsafeOkHttpClient`: TLS set-up that trusts every certificate. This is a foreign library configuration, not core logic.
- Gson serialisation and org.json parsing: both are function parameters.
  - org.json coerces numbers and booleans to strings in `getString`. That coercion is not modelled: a non-string value for a string key fails with `WrongType`.
  - `EnvelopeObject` is the object an envelope-shaped peer would send, not Gson's own output. Gson writes an org.json `JSONObject` through its internal fields.
- Threads: `HandlerThread`, the main-looper `Handler` and `CountDownLatch.await` become sequential steps. The real race between the OkHttp callback thread and the timer thread is not modelled.
- Handler timing: the delays of reconnect jobs and request timeouts are recorded but not used to order steps. The environment picks which queue runs next.
- The timeout formula `1500 * (15 + 0.1 * length)` is floating point and is not modelled. The model takes any positive timeout.
- The RxJava adapters `request(): Observable` and `syncRequest`: thin wrappers over a foreign library.
- `Log` calls, `onClosing` and the binary `onMessage`: they only log.
- Kotlin's 32-bit `Int` for the retry count and the timeouts: the model uses unbounded integers. The count stays far below 2^31 with these parameters. The interval is capped at 8000 before any overflow could matter.
- The branch of `handleTransport` where the transport is already closed: it cannot run, because the constructor has just created the transport. `ThinWS.constructor` models only the `connect` call.
- The socket argument of OkHttp's `onClosed`, `onFailure` and `onMessage`: the source ignores which socket made the call, and so does the model.
- `Backoff.RetryStrategy.ReconnectInterval`: the getter evaluates `Interval` on the strategy's fields. Its properties are stated by `Backoff.IntervalBounds` and `Backoff.DefaultSchedule`.
