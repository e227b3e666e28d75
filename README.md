# Realtime store and endpoint, modelled in Dafny

This project models the state-synchronisation core of a small web application.

- **The store.** A single in-memory `RealtimeStore` holds:
  - a counter (count and time of last change);
  - a chat log that keeps the latest 50 messages;
  - a poll of three fixed options.

  Every change calls each registered listener once.
- **The POST endpoint.** It selects one store operation from the request's `action` field and its companion fields, then answers with the whole state. A body that cannot be read gets status 400.
- **The GET endpoint.** It opens a Server-Sent Events stream. The stream sends the state once on open, subscribes a listener that sends the state again after every change, sends keepalive comments, and unsubscribes when the request is aborted.

Files:

- `wrappers.dfy`: module `Wrappers`, the `Option` type.
- `store.dfy`: module `Store`, which models `lib/realtime-store.ts`.
  - The class `RealtimeStore` keeps the source's fields (`counter`, `chatMessages`, `votes`, `listeners`) and changes them in place.
  - Its methods are proved against pure functions: `AppendCapped` and `Latest` for the chat log, `FindOption` and `CastVote` for the poll, and `Notified` for one round of listener calls.
- `route.dfy`: module `Route`, which models `app/api/realtime/route.ts`.
  - `Classify` holds the dispatch, and `Post` applies it to a store. The two-state predicate `Served` states what one POST promises, and the stream-level POST methods promise it too.
  - `DataFrame` and `PingFrame` are the frame texts. `DecodeFrame` is a reference reader for them, following section 9.2.6 of the WHATWG HTML Living Standard ("Server-sent events", interpreting an event stream).
  - The class `EventStream` is one GET connection.

Modelling choices:

- **Clock and ids are parameters.** `Date.now()` becomes a `now` parameter: one per operation, and one for the store's creation. The random chat-message id becomes an `id` parameter.
- **Listeners are objects.** A listener is an object of the empty class `Listener`. A JavaScript callback is a value with identity, so registering the same one twice registers it once.
- **Listener calls are recorded.** What a call does is recorded in the store field `delivered`. For each listener it holds the sequence of calls received, each with the state it could read at that moment. The GET listener's effect is to send that state as a frame, so `EventStream.Frames()` is the opening frame followed by one data frame per recorded call.
- **JSON is abstract.** Serialisation is the function parameter `serialize`. Parsing is the request datatype: `Malformed`, or `Parsed` with the four fields as optional strings. JavaScript truthiness of a field is "present and not empty" (`Truthy`).
- **Field renamed.** A poll option's `label` is called `name`, because `label` is a reserved word in Dafny.

## Model

| member | source | states |
|---|---|---|
| `Store.InitialState` | lib/realtime-store.ts:23-29 | The starting state has count 0, an empty chat log, and exactly three options with ids "1", "2", "3", each at 0 votes. It satisfies the store's invariant (log within 50, the original three options in order). |
| `Store.RealtimeStore.GetState` | lib/realtime-store.ts:109-115 | The snapshot holds exactly the counter, chat log and poll in force. The listeners are not part of it. |
| `Store.RealtimeStore.constructor` | lib/realtime-store.ts:22-30 | A new store holds `InitialState(now)`, with no listeners and no calls delivered. |
| `Store.RealtimeStore.NotifyListeners` | lib/realtime-store.ts:104-106 | Every registered listener is called exactly once, seeing the current state. No other listener is called, and the state and the listener set are unchanged. |
| `Store.NotifiedCounts` | lib/realtime-store.ts:104-106 | After one notification, a registered listener has exactly one more call, carrying the notified state. An unregistered listener's calls are untouched. |
| `Store.RealtimeStore.IncrementCounter` | lib/realtime-store.ts:37-44 | The count becomes old count + 1 and `lastUpdated` becomes `now`. Chat, poll and listeners are unchanged. Listeners are notified once, and the new counter is returned. |
| `Store.RealtimeStore.DecrementCounter` | lib/realtime-store.ts:46-53 | The count becomes old count − 1 with no floor, so it may go negative. `lastUpdated` becomes `now`. Nothing else changes, and listeners are notified once. |
| `Store.RealtimeStore.ResetCounter` | lib/realtime-store.ts:55-59 | The counter becomes (0, `now`) whatever it was. Chat and poll are unchanged, and listeners are notified once. |
| `Store.AppendCapped` | lib/realtime-store.ts:73-77 | The new message is the last element. The result is a suffix of log + [m] that drops at most the first element. When the log had at most 50 messages, the result has at most 50 and is exactly the latest 50 of log + [m]. |
| `Store.AppendAllKeepsLatest` | lib/realtime-store.ts:73-77 | After any sequence of appends to a log of at most 50, the log is the most recent (at most 50) messages of all of them, in their original order. |
| `Store.RealtimeStore.AddChatMessage` | lib/realtime-store.ts:66-80 | Returns a message with the given id, username, text and timestamp. The log becomes `AppendCapped(old log, m)`, so m is its last element and the 50 bound is kept. Counter and poll are unchanged, and listeners are notified once. |
| `Store.FindOption` | lib/realtime-store.ts:88 | Finds the first position whose option has the given id, as `find` does. It returns nothing exactly when no option has that id. |
| `Store.CastVote` | lib/realtime-store.ts:87-94 | Length, order, ids and names of the options are unchanged. Only the first option with the id gains one vote. The poll is unchanged exactly when no option has the id. |
| `Store.TallyAfterVote` | lib/realtime-store.ts:87-94 | The total number of votes grows by one when the id names an option, and not at all otherwise. |
| `Store.RealtimeStore.AddVote` | lib/realtime-store.ts:87-94 | The poll becomes `CastVote(old poll, id)` and is returned. It notifies once when the id names an option. Otherwise it changes nothing and notifies no one. |
| `Store.RealtimeStore.Subscribe` | lib/realtime-store.ts:97-99 | The listener set gains the listener; adding it again does not add it twice. Returns the handle that removes it. |
| `Store.RealtimeStore.Unsubscribe` | lib/realtime-store.ts:99-101 | The listener leaves the set, so later notifications do not call it. State and delivered calls are unchanged. |
| `Route.Classify` | app/api/realtime/route.ts:50-63 | The selected operation matches the request's action name. A vote carries the request's non-empty option id. A chat carries its non-empty username and message. |
| `Route.IgnoredExactly` | app/api/realtime/route.ts:53-63 | A request is a no-op exactly when its action is missing or unknown, or "vote" lacks a truthy option id, or "chat" lacks a truthy username or message. |
| `Route.NotifiesUnlessNoOp` | app/api/realtime/route.ts:53-63 | Listeners are called for every operation except an ignored request and a vote for an unknown option. Those two leave the state as it was. |
| `Route.EffectKeepsWellFormed` | app/api/realtime/route.ts:53-63 | Every dispatched operation keeps the chat log within 50 and the poll's three options in order. |
| `Route.RunKeepsWellFormed` | app/api/realtime/route.ts:53-67 | Over any sequence of requests, the store's invariant holds after each one. |
| `Route.Post` | app/api/realtime/route.ts:47-71 | Its contract is `Served`, plus the store's invariant. A malformed body gets status 400 with error "Invalid request" and the store is untouched. Any other body applies only the selected operation and gets status 200 with the full state after it. Every registered listener is called once exactly when the operation notifies, no other listener is called, and the listener set is unchanged. |
| `Route.DataFrame` | app/api/realtime/route.ts:11 | A data frame is 8 characters longer than its JSON text and ends with the blank line that ends an event. When the JSON text is on one line, so is the rest of the frame, so each frame is one event. |
| `Route.PingFrame` | app/api/realtime/route.ts:25 | The keepalive frame is one line starting with a colon, which marks a comment, followed by the blank line. |
| `Route.DataFrameDecodes` | app/api/realtime/route.ts:11 | The frame `"data: " + json + "\n\n"` reads back, under the event-stream rules, as one message whose data is exactly the JSON text, provided that text is on one line. |
| `Route.PingFrameDecodes` | app/api/realtime/route.ts:25 | The keepalive frame `": ping\n\n"` reads back as a comment, not as a message. |
| `Route.DataFramesDecode` | app/api/realtime/route.ts:9-13 | A client reading a stream's data frames gets back the serialized states, one message each, in the order they were sent. |
| `Route.DataFramesSnoc` | app/api/realtime/route.ts:19-21 | One more call to the stream's listener appends exactly one data frame, carrying that call's state, after the frames already sent. |
| `Route.EventStream.Frames` | app/api/realtime/route.ts:9-21 | The first frame is the snapshot sent on open. After it comes exactly one data frame per call the listener has received, in the order of the calls. |
| `Route.EventStream.Open` | app/api/realtime/route.ts:8-21 | On open, the only frame is the snapshot of the state in force before subscribing. After that, a fresh listener is registered. The stream is streaming with no pings, and its listener is registered exactly while it streams (`Valid`). The store's state is untouched. |
| `Route.EventStream.Ping` | app/api/realtime/route.ts:24-26 | While the stream is open, a timer tick emits exactly the keepalive frame. |
| `Route.EventStream.Abort` | app/api/realtime/route.ts:29-33 | Abort removes the stream's listener from the store and closes the stream, so the listener is still registered exactly while the stream streams. The frames sent so far and the store's state are unchanged. |
| `Route.PostToOpenStream` | app/api/realtime/route.ts:19-21 | For an open stream, a POST keeps everything `Post` promises (`Served`): the response, the new state, the listener set, and one call to every other registered listener. It adds exactly one frame, carrying the full new state, when the POST notifies, and none otherwise. The stream stays open and registered. |
| `Route.PostToClosedStream` | app/api/realtime/route.ts:29-33 | After abort, a POST keeps everything `Post` promises (`Served`), and no POST of any kind adds a frame to that stream. |
| `Route.TwoStreams` | app/api/realtime/route.ts:19-33 | Two streams are open on a fresh store. An increment reaches both. After the second is aborted, increments posted through either stream reach only the first. The first stream ends with 4 frames and the second with 2. |
| `Route.Scenario` | app/api/realtime/route.ts:47-67 | Start from a fresh store with one open stream, then post three increments, a vote for "2" and a chat from "Alice". Afterwards the count is 3, option "2" has 1 vote and the others 0, the log holds Alice's message, and the stream has sent six data frames. |

## Left out

- Timers, transport and headers. `setInterval`/`clearInterval` timing, `ReadableStream`, `controller.enqueue`/`close`, `TextEncoder` and the response headers are event-loop and transport plumbing. Keepalives are modelled only as `EventStream.Ping`, allowed at any step while the stream is open.
- Route.EventStream.Frames: holds the data frames in order, but keepalive frames are only counted (`pings`). Where a ping falls among the data frames is not recorded.
- Route.EventStream.Abort: requires the stream to be open, because the abort signal fires at most once. A second abort is not modelled.
- JSON. `JSON.stringify` and `request.json()` are foreign calls. Serialisation is a function parameter, and parsing is the `Malformed`/`Parsed` input. `DataFrameDecodes` assumes the JSON text is on one line, as `JSON.stringify` without indentation produces.
- Non-string field values. Request fields are strings or absent. For `action` and `optionId`, a present non-string value behaves like an unknown action or an unknown option in the source (no change). A truthy non-string `username` or `message`, however, would be stored as-is; the model cannot express that.
- Aliasing. `getState` returns the live `chatMessages` array and `votes` array, and `addVote` returns the `votes` array. `addChatMessage` pushes to and shifts the log in place, and `addVote` increments an option object in place, so a holder of an earlier result would see those changes. The counter is different: the store replaces `this.counter` with a new object on every change, so a counter held from an earlier `getState` never changes. The model returns values. The route serialises the result immediately, so its output is the same.
- Getters. `getCounter`, `getChatMessages` and `getVotes` are not used by the route. `GetState` covers what they return.
- Listener order and failures. The order in which listeners are called is not modelled: the state does not change during a round of calls, so every listener sees the same state. Listeners cannot fail in the model.
- Counter precision. The count is an unbounded integer. A JavaScript number stops counting exactly beyond 2^53.
- Concurrency. The source runs single-threaded, and the model is sequential.
- `lib/redis-client.ts` is not part of this model. It is a network client that the store never uses.
- The React components and pages are not part of this model. They are presentation: `EventSource` clients, rendering, and floating-point display of vote percentages.

## Code and design description

Where the following differ, the model follows the code:

- **Persistence.** The design describes a store that persists one serialised blob to a key-value service and repairs a missing or corrupt value with defaults. The code keeps everything in memory, with nothing persisted and nothing to repair.
- **Chat trimming.** The design drops messages from the front "until the length is 50". The code drops exactly one message after each push. The two agree as long as the log never exceeded 50, which `AppendAllKeepsLatest` and `RunKeepsWellFormed` show is always the case.
- **Listener failures.** The design isolates a failing listener from the others. The code's `forEach` does not catch errors, so a throwing listener would stop the round and reach the mutating caller.
