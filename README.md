# Clubby Java client: request correlation, modelled in Dafny

Clubby is a JSON-envelope RPC protocol carried over one websocket. This
project models the request-correlation engine of its Java client, in both of
the repository's variants:

- the current `Clubby` (`src/main/java/...`);
- the older one (`src/com/...`).

The model covers:

- **Call ids.** `getNextCmdId` pre-increments a Java `int` that starts at 0.
  It wraps explicitly (`CmdIds`).
- **Pending-call registry.** `CmdListenerManager` is a map from id to wrapper
  with put and pop-by-id (`Registry`). The two variants hold the same code,
  except that the older one is not `synchronized`. One class models both.
- **Call.** `call`/`callBackend` allocates an id. With a listener, it picks
  the options in effect, arms a timeout when the effective timeout is
  non-zero and registers the wrapper. It then builds a one-command frame and
  sends it (`Client.Clubby.Call`, `LegacyClient.Clubby.Call`).
- **Response dispatch.** `onTextMessage` walks the response list in order.
  For each response it pops the id: status 0 calls `onResponse`, any other
  status calls `onError(status, status_msg)`, and unknown ids are dropped.
- **Timeouts.** `TimeoutHandler.run` pops the id and fails the call with
  `504 "Response timeout"` if it was still pending.
- **Connection state.** `onStateChanged` translates the socket state into a
  `ClubbyState` and tells every observer.
- **Observers.** `ListenerManager` is an ordered list of observers: add and
  remove ignore null, and fan-out visits the list in order (`Observers`).
- **Options and builders.** This covers `ClubbyOptions` (`Options`), both
  `Builder`s and the constructor's address inference.

How the environment is modelled:

- The websocket is the `socketState` field. The socket is open exactly in
  state `Open`, and frames handed to it are appended to `sent`.
- The JSON mapper is left out. Frames, commands and responses are datatypes,
  and `onTextMessage` receives the text together with the frame decoded
  from it.
- The executor is left out. Timers are recorded in `timers`, and a timer
  firing is the method `FireTimeout(id)`.
- User callbacks are recorded in order: per-call listeners in `resolved`
  (one `Resolution` per callback) and observers in `notified`. Every
  callback is taken to return normally; what a throwing callback does in
  the source is listed under "## Left out".

Concurrency is modelled as a sequence of discrete events. At-most-once
resolution then rests on the pop, as in the source:

- **Pure form.** `Correlation.RunExactlyOnce` covers any interleaving of
  response messages and timer firings. When every callback returns
  normally, a pending call is resolved exactly once if some delivery names
  its id, and never otherwise.
- **Class form.** Every event method of `Clubby` preserves `AtMostOnce`:
  - pending and resolved ids have all been handed out;
  - no resolved id is still pending;
  - no id is resolved twice.

  `Call` preserves it only while the id counter has not wrapped.

Behaviour of the code that the model keeps as written:

- A call made while the socket is closed still consumes its id and stays
  registered, because registration happens before `sendText` throws.
- A response does not cancel the call's timer. The timer later finds the id
  gone and does nothing.
- `addCmdListener` overwrites an entry with the same id instead of failing.
- Call ids are a Java `int` that wraps after `2^31 - 1` calls. They are not
  unbounded.

## Model

| member | source | states |
|---|---|---|
| `States.StateOf` | src/main/java/com/cesanta/clubby/lib/Clubby.java:376-393 | CREATED and CLOSED map to NOT_CONNECTED, CONNECTING to CONNECTING, OPEN to CONNECTED, CLOSING to DISCONNECTING; each client state is stated as an if-and-only-if over the socket states |
| `Options.ClubbyOptions.CreateDefault` | src/main/java/com/cesanta/clubby/lib/ClubbyOptions.java:6-12 | a new options object has timeout 0 |
| `Options.ClubbyOptions.CreateFrom` | src/main/java/com/cesanta/clubby/lib/ClubbyOptions.java:14-18 | returns a fresh object with the same timeout as the source |
| `Options.ClubbyOptions.Timeout` | src/main/java/com/cesanta/clubby/lib/ClubbyOptions.java:26-29 | afterwards the timeout is `t`, and the method returns the same object |
| `Options.CopyIsIndependent` | src/main/java/com/cesanta/clubby/lib/ClubbyOptions.java:14-18 | setting the timeout of a copy made by `createFrom` leaves the source's timeout unchanged |
| `Registry.Lookup` | src/main/java/com/cesanta/clubby/lib/CmdListenerManager.java:23 | `get(id)` returns the entry exactly when the id is present, and null otherwise |
| `Registry.Added` | src/main/java/com/cesanta/clubby/lib/CmdListenerManager.java:16-20 | a null wrapper leaves the map unchanged; otherwise the map gains the wrapper's own id, that entry becomes the wrapper, and every other entry is unchanged |
| `Registry.CmdListenerManager.constructor` | src/main/java/com/cesanta/clubby/lib/CmdListenerManager.java:13-14 | the registry starts empty |
| `Registry.CmdListenerManager.AddCmdListener` | src/main/java/com/cesanta/clubby/lib/CmdListenerManager.java:16-20 | the new map is `Added(old, w)`, and every entry stays filed under its wrapper's id |
| `Registry.CmdListenerManager.PopListener` | src/main/java/com/cesanta/clubby/lib/CmdListenerManager.java:22-26 | returns what was stored under `id` (or null), and the id is then absent |
| `Registry.PopTwiceFindsNothing` | src/main/java/com/cesanta/clubby/lib/CmdListenerManager.java:22-26 | after a pop, a second pop of the same id returns null |
| `Registry.PopLeavesOthers` | src/main/java/com/cesanta/clubby/lib/CmdListenerManager.java:22-26 | popping one id leaves every other id's entry unchanged |
| `Registry.AddThenPop` | src/main/java/com/cesanta/clubby/lib/CmdListenerManager.java:16-26 | adding a wrapper and then popping its id returns that wrapper and restores the map, minus that id |
| `Registry.AddKeepsKeyedById` | src/main/java/com/cesanta/clubby/lib/CmdListenerManager.java:18 | storing under `getCmdId()` keeps every entry keyed by its own id |
| `Observers.RemoveAbsent` | src/com/cesanta/clubby/lib/ListenerManager.java:24-28 | removing an observer that is not in the list leaves the list unchanged |
| `Observers.RemoveFirstOccurrence` | src/com/cesanta/clubby/lib/ListenerManager.java:24-28 | removing a listed observer cuts out exactly its first occurrence and keeps the order of the rest |
| `Observers.RemoveFirstMultiset` | src/com/cesanta/clubby/lib/ListenerManager.java:24-28 | removal takes away one occurrence of the observer and nothing else |
| `Observers.ListenerManager.constructor` | src/com/cesanta/clubby/lib/ListenerManager.java:11-16 | the observer list starts empty |
| `Observers.ListenerManager.AddListener` | src/com/cesanta/clubby/lib/ListenerManager.java:18-22 | null is a no-op; otherwise the observer is appended at the end and duplicates are kept |
| `Observers.ListenerManager.RemoveListener` | src/com/cesanta/clubby/lib/ListenerManager.java:24-28 | null is a no-op; otherwise the first occurrence is removed |
| `Observers.ListenerManager.FanOut` | src/com/cesanta/clubby/lib/ListenerManager.java:30-76 | the k-th invocation goes to the k-th listed observer with the same event: once per occurrence, in list order; the list is not modified |
| `Frames.NewCmdRoundTrip` | src/main/java/com/cesanta/clubby/lib/Clubby.java:160-167 | a built command carries its name, id and args; its timeout field is absent exactly when the timeout is 0, and reading the deadline back returns the timeout |
| `Frames.LegacyCmdRoundTrip` | src/com/cesanta/clubby/lib/Clubby.java:119-123 | the older command carries its name, id and args, and it has no timeout field, so no deadline is requested |
| `Frames.CreateFrameCmdRoundTrip` | src/main/java/com/cesanta/clubby/lib/Clubby.java:118-131 | the frame is a version-1 command frame from the device id to `dst`, keyed with the device key; it holds exactly the one command given and no responses |
| `Correlation.OutcomeOf` | src/main/java/com/cesanta/clubby/lib/Clubby.java:333-345 | status 0 is a success carrying the payload; any other status is a failure carrying that status and `status_msg` |
| `Correlation.DispatchSnoc` | src/main/java/com/cesanta/clubby/lib/Clubby.java:328-347 | one more response at the end of the list is matched against the registry that the earlier responses left |
| `Correlation.DispatchOnce` | src/main/java/com/cesanta/clubby/lib/Clubby.java:328-347 | for one message, a pending id that the list names gets exactly one callback, even if named several times; any other id gets none |
| `Correlation.DispatchFaithful` | src/main/java/com/cesanta/clubby/lib/Clubby.java:330-345 | every callback goes to a call that was pending and named in the list, uses that call's wrapper, and carries the outcome of the first response naming it |
| `Correlation.RunExactlyOnce` | src/main/java/com/cesanta/clubby/lib/Clubby.java:548-556 | over any interleaving of response messages and timer firings, a pending call is resolved exactly once if some delivery names its id, and never otherwise |
| `CmdIds.CounterAfterNoWrap` | src/main/java/com/cesanta/clubby/lib/Clubby.java:410-412 | before wrapping, the n-th call gets id n, so the first id is 1 |
| `CmdIds.IdsStrictlyIncrease` | src/main/java/com/cesanta/clubby/lib/Clubby.java:47 | for the first `2^31 - 1` calls, ids are positive and strictly increasing |
| `CmdIds.CounterWraps` | src/main/java/com/cesanta/clubby/lib/Clubby.java:410-412 | the call after the `2^31 - 1`-th gets `-2^31`: the Java `int` counter wraps |
| `Client.AddressInference` | src/main/java/com/cesanta/clubby/lib/Clubby.java:54-81 | explicit addresses are kept. With no backend, it is `//` plus the server's host, or `//api.cesanta.com`. With no server address, it is `wss:` + backend + `:443`, which is `wss://api.cesanta.com:443` by default |
| `Client.Clubby.constructor` | src/main/java/com/cesanta/clubby/lib/Clubby.java:49-92 | addresses are inferred as above, and the builder's options object itself becomes the default options. The client starts NOT_CONNECTED with counter 0 and an empty registry |
| `Client.Clubby.AddListener` | src/main/java/com/cesanta/clubby/lib/Clubby.java:195-197 | delegates to the observer list: null is ignored, otherwise the observer is appended |
| `Client.Clubby.RemoveListener` | src/main/java/com/cesanta/clubby/lib/Clubby.java:202-204 | delegates to the observer list: null is ignored, otherwise the first occurrence is removed |
| `Client.Clubby.SetDefaultOptions` | src/main/java/com/cesanta/clubby/lib/Clubby.java:414-416 | the defaults become a fresh copy with the given timeout |
| `Client.Clubby.GetOptions` | src/main/java/com/cesanta/clubby/lib/Clubby.java:418-420 | returns a fresh copy of the defaults |
| `Client.Clubby.GetNextCmdId` | src/main/java/com/cesanta/clubby/lib/Clubby.java:410-412 | pre-increments the counter with Java `int` wrap-around and returns the new value |
| `Client.Clubby.SendText` | src/main/java/com/cesanta/clubby/lib/Clubby.java:308-316 | when the socket is open, the frame is sent; otherwise `IllegalStateException("Clubby is not connected")` is thrown and nothing is sent |
| `Client.Clubby.Call` | src/main/java/com/cesanta/clubby/lib/Clubby.java:447-500 | takes the next id. With a listener, it registers the wrapper under that id and arms a timer exactly when the effective timeout (per-call, else default) is non-zero. The frame carries that timeout, and the send fails when not connected while the id and registration stay. Needs a listener or options. Preserves at-most-once until the counter wraps |
| `Client.Clubby.CallBackend` | src/main/java/com/cesanta/clubby/lib/Clubby.java:517-525 | same as `Call`, with the destination set to the backend address |
| `Client.Clubby.Publish` | src/main/java/com/cesanta/clubby/lib/Clubby.java:350-406 | an event handler appends one invocation per observer, in list order, to the observer log |
| `Client.Clubby.DeliverResponse` | src/main/java/com/cesanta/clubby/lib/Clubby.java:330-346 | pops the response's id. If it was pending, that call's listener gets the response or the error |
| `Client.Clubby.OnTextMessage` | src/main/java/com/cesanta/clubby/lib/Clubby.java:321-348 | observers see the text, and the callbacks are exactly `Dispatch` of the response list against the registry; every id named is popped. Preserves at-most-once. The two logs are separate, so the contract does not state that observers come first; that order is fixed only by the body |
| `Client.Clubby.FireTimeout` | src/main/java/com/cesanta/clubby/lib/Clubby.java:548-556 | pops the id. If it was still pending, the call gets exactly one `onError(504, "Response timeout")`; otherwise nothing happens. Preserves at-most-once |
| `Client.Clubby.OnStateChanged` | src/main/java/com/cesanta/clubby/lib/Clubby.java:376-396 | the state becomes `StateOf(s)`, connected exactly when the socket is open, and every observer gets that state in order |
| `Client.Clubby.OnConnected` | src/main/java/com/cesanta/clubby/lib/Clubby.java:351-353 | every observer, in order, gets `onConnected`; the counter, state, default options, sent frames, timers and call callbacks are unchanged |
| `Client.Clubby.OnDisconnected` | src/main/java/com/cesanta/clubby/lib/Clubby.java:356-363 | every observer, in order, gets `onDisconnected`; the counter, state, default options, sent frames, timers and call callbacks are unchanged |
| `Client.Clubby.OnError` | src/main/java/com/cesanta/clubby/lib/Clubby.java:366-368 | every observer, in order, gets `onError(cause)`; the counter, state, default options, sent frames, timers and call callbacks are unchanged |
| `Client.Clubby.OnConnectError` | src/main/java/com/cesanta/clubby/lib/Clubby.java:371-373 | every observer, in order, gets `onConnectError(cause)`; the counter, state, default options, sent frames, timers and call callbacks are unchanged |
| `Client.Clubby.OnSendingFrame` | src/main/java/com/cesanta/clubby/lib/Clubby.java:399-401 | every observer, in order, gets `onDataSending(text)`; the counter, state, default options, sent frames, timers and call callbacks are unchanged |
| `Client.Clubby.HandleCallbackError` | src/main/java/com/cesanta/clubby/lib/Clubby.java:404-406 | every observer, in order, gets `handleCallbackError(cause)`; the counter, state, default options, sent frames, timers and call callbacks are unchanged |
| `Client.Builder.constructor` | src/main/java/com/cesanta/clubby/lib/Clubby.java:245-252 | defaults: no server address, no backend, empty device id and key, and fresh options with timeout 0 |
| `Client.Builder.Device` | src/main/java/com/cesanta/clubby/lib/Clubby.java:257-261 | sets the device id and key and returns the builder |
| `Client.Builder.Backend` | src/main/java/com/cesanta/clubby/lib/Clubby.java:267-270 | sets the backend and returns the builder |
| `Client.Builder.ServerAddress` | src/main/java/com/cesanta/clubby/lib/Clubby.java:280-283 | sets the server address and returns the builder |
| `Client.Builder.Timeout` | src/main/java/com/cesanta/clubby/lib/Clubby.java:291-294 | sets the timeout of the builder's options object |
| `Client.Builder.Build` | src/main/java/com/cesanta/clubby/lib/Clubby.java:303-305 | the built client is the constructor's: inferred addresses, the builder's options object shared, NOT_CONNECTED over a created socket, counter 0, fresh empty registry and observer list, and empty logs |
| `LegacyClient.Clubby.constructor` | src/com/cesanta/clubby/lib/Clubby.java:39-54 | the builder's addresses and device values are taken unchanged. The client starts NOT_CONNECTED with counter 0 and an empty registry |
| `LegacyClient.Clubby.AddListener` | src/com/cesanta/clubby/lib/Clubby.java:151-153 | null is ignored, otherwise the observer is appended |
| `LegacyClient.Clubby.RemoveListener` | src/com/cesanta/clubby/lib/Clubby.java:158-160 | null is ignored, otherwise the first occurrence is removed |
| `LegacyClient.Clubby.SendText` | src/com/cesanta/clubby/lib/Clubby.java:235-243 | sends when the socket is open, else throws `IllegalStateException` and sends nothing |
| `LegacyClient.Clubby.Call` | src/com/cesanta/clubby/lib/Clubby.java:337-372 | takes the next id, and a non-null wrapper is stamped with it and registered; null registers nothing. The frame goes from the device to the backend with the key and exactly one command. A send that fails leaves the registration. Preserves at-most-once until the counter wraps |
| `LegacyClient.Clubby.Publish` | src/com/cesanta/clubby/lib/Clubby.java:277-333 | each forwarding handler appends one invocation per observer, in order |
| `LegacyClient.Clubby.DeliverResponse` | src/com/cesanta/clubby/lib/Clubby.java:257-273 | pops the id. If it was pending: status 0 calls `onResponseGeneric`, otherwise `listener.onError(status, status_msg)` |
| `LegacyClient.Clubby.OnTextMessage` | src/com/cesanta/clubby/lib/Clubby.java:248-275 | the callbacks are exactly `Dispatch` of the response list, every id named is popped, and unknown ids are dropped. Preserves at-most-once |
| `LegacyClient.Clubby.OnStateChanged` | src/com/cesanta/clubby/lib/Clubby.java:302-323 | the same translation as the current client, then every observer gets the new state |
| `LegacyClient.Builder.constructor` | src/com/cesanta/clubby/lib/Clubby.java:188-196 | defaults: server `http://api.cesanta.com:80`, backend `//api.cesanta.com`, and empty device id and key |
| `LegacyClient.Builder.ServerAddress` | src/com/cesanta/clubby/lib/Clubby.java:201-204 | sets the server address and returns the builder |
| `LegacyClient.Builder.Device` | src/com/cesanta/clubby/lib/Clubby.java:209-213 | sets the device id and key and returns the builder |
| `LegacyClient.Builder.Backend` | src/com/cesanta/clubby/lib/Clubby.java:218-221 | sets the backend and returns the builder |
| `LegacyClient.Builder.Build` | src/com/cesanta/clubby/lib/Clubby.java:230-232 | the client carries the builder's values and starts as the constructor leaves it: NOT_CONNECTED over a created socket, counter 0, fresh empty registry and observer list, and empty logs |
| `Scenarios.PingPong` | src/main/java/com/cesanta/clubby/lib/Clubby.java:321-348 | connect, call `ping` and receive status 0 with `"pong"`: the listener gets exactly that response once, and nothing stays pending |
| `Scenarios.ResponseBeatsTimeout` | src/main/java/com/cesanta/clubby/lib/Clubby.java:548-556 | a response arriving before the timer fires resolves the call, and the later timer does nothing |
| `Scenarios.TimeoutBeatsResponse` | src/main/java/com/cesanta/clubby/lib/Clubby.java:548-556 | a timer firing first gives one 504 failure, and the late response is dropped |
| `Scenarios.TwoCallsOneMessage` | src/main/java/com/cesanta/clubby/lib/Clubby.java:328-347 | two responses in one message, in reverse order: each call is resolved once, in message order, with its own outcome |
| `Scenarios.CallWhileDisconnected` | src/main/java/com/cesanta/clubby/lib/Clubby.java:479-499 | a call on a closed socket ends in `IllegalState("Clubby is not connected")` and sends nothing, yet the counter moves to the next id and the caller's listener stays registered under that id |

## Left out

- Websocket transport (`connect`, `disconnect`, the socket factory, protocol
  and extension setup) is foreign I/O. The socket is reduced to its state
  and a log of the frames handed to it.
- The Jackson mapper is a foreign library. Frames are not serialized to
  text, and incoming text is given together with its decoded frame.
  Response payloads are passed to `onResponse` as-is, without the decode
  into the response class. `System.exit` on a serialization failure is
  left out. An exception raised by decoding inside `onTextMessage` is left
  out too.
- `createFrameResp` is never called by the client and is not modelled.
- The `ScheduledExecutorService` and its futures are timer machinery.
  Scheduling is a log entry, and firing is `FireTimeout`, which may be
  invoked for any id. That a timer eventually fires is not modelled, so
  exactly-once holds only given a delivery that names the id.
- `synchronized` and thread interleavings: each event runs to completion,
  one at a time.
- `java.net.URL` parsing is a foreign call. The server's host is a
  parameter, and a malformed URL (an `IOException`) is not modelled.
- Null strings (device id, key, addresses given to builder setters) and
  null options passed to `setDefaultOptions`/`createFrom` are not modelled.
  The source dereferences or stores them.
- `CmdListenerWrapper` (both versions) is a record: listener identity, id,
  armed timeout. The older client stamps the caller's wrapper object in
  place, so a wrapper reused for two calls is re-stamped under both keys.
  That aliasing is not captured.
- LegacyClient.Clubby.DeliverResponse: a failing status reaches
  `listenerWrapper.listener.onError` through the base wrapper's field
  (src/com/cesanta/clubby/lib/Clubby.java:268). The older
  `CmdListenerWrapper` says that field "will be hidden in subclasses"
  (src/com/cesanta/clubby/lib/CmdListenerWrapper.java:10-13). A subclass
  that sets only its own field leaves the base field null, and every
  non-zero status would then throw a `NullPointerException`. The model
  assumes the base field is set. No subclass is part of this model, so
  this cannot be settled here.
- The listener interfaces, adapters and `ClubbyException` are interfaces
  with no logic of their own. The one-line getters `getState` and
  `isConnected` of both clients are the functions `GetState` and
  `IsConnected`.
- Client.Clubby.OnTextMessage: requires the decoded frame to carry a `resp`
  list. In the source, a frame without one makes the `for` loop at
  src/main/java/com/cesanta/clubby/lib/Clubby.java:328 throw a
  `NullPointerException` before any id is popped, and that exception path
  is not modelled.
- LegacyClient.Clubby.OnTextMessage: the same `resp` requirement applies,
  for the loop at src/com/cesanta/clubby/lib/Clubby.java:255.
- Observers.ListenerManager.FanOut: every observer callback is assumed to
  return normally. In the source, an observer that throws ends the `for`
  loop, so later observers are not called and the exception propagates to
  the caller.
- Client.Clubby.Publish: the same applies to every observer event of the
  current client. A throw ends the notification at that observer.
- LegacyClient.Clubby.Publish: the same applies to the older client.
- Client.Clubby.OnTextMessage: callbacks are assumed to return normally.
  In the source, a throw from an observer's `onDataReceived` (line 325)
  leaves every response of the message unpopped. A throw from a call
  listener's `onResponse` or `onError` (lines 335-344) leaves the rest of
  the list unpopped and those calls pending. The model pops and resolves
  every response in the list.
- LegacyClient.Clubby.OnTextMessage: the same holds for the throws at
  lines 252 and 262-271. Note that the older `CmdListener.onError`
  declares `throws ClubbyException`.
- Correlation.RunExactlyOnce: the exactly-once result assumes every
  callback returns normally. A throwing callback in the source can leave a
  named call pending, to be resolved later by its timer or never.
- Client.Clubby.DeliverResponse and LegacyClient.Clubby.DeliverResponse:
  the pop always takes effect before the callback, so a throwing callback
  still leaves that one call resolved once. Only the later responses in the
  list are affected.
- Client.Clubby.Call: at-most-once is preserved only while the id counter
  has not wrapped (`old(cmdId) < 2^31 - 1`), because the source's `int`
  counter reuses ids after wrapping.
- LegacyClient.Clubby.Call: the same wrap-around limit applies.
- Client.Clubby.Call: requires a listener or explicit options. With neither,
  the source has already consumed the id (line 456) when `opts.getTimeout()`
  throws a `NullPointerException` (line 486), and nothing is sent. Every
  listener-less call through the 5-argument `call` (lines 502-510) or the
  4-argument `callBackend` (lines 527-534) takes that path. That exception
  path is not modelled.
- Client.Clubby.CallBackend: the same requirement applies.
- Observers.ListenerManager.FanOut: observer callbacks are assumed not to
  call back into the client. In the source, an observer that calls
  `addListener` or `removeListener` during a fan-out changes the
  `ArrayList` under its iterator (ListenerManager.java:31-75). The next
  step then throws `ConcurrentModificationException`. If a removal leaves
  the cursor at the new size, the loop silently ends and skips the last
  observer.
- Client.Clubby.Publish: the same re-entrancy assumption applies to every
  observer event of the current client.
- LegacyClient.Clubby.Publish: the same applies to the older client.
- Client.Clubby.OnTextMessage: call listeners are assumed not to call back
  into the client. In the source, an `onResponse` or `onError` that calls
  `call()` (line 335) registers a new id while the response loop is still
  running. The final registry is then `old - Ids(resps)` plus that id, not
  `old - Ids(resps)`, and a later response in the same message that
  happens to name the new id would resolve it. An observer that changes
  the observer list in `onDataReceived` behaves as described for `FanOut`.
- LegacyClient.Clubby.OnTextMessage: the same holds for a `call()` from the
  listener at line 262.
- Correlation.RunExactlyOnce: deliveries are assumed to be the only events.
  A call registered by a callback is not a pending call of the run, and
  the result says nothing about it.
