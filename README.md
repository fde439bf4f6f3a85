# Chat session and event transport of a RAG chat front end

This project models the logic of a single-page chat client for a
retrieval-augmented-generation assistant. The logic has three parts:

- **The chat view's state** (`src/App.tsx`): the message log, the text
  input, the "awaiting an answer" and "uploading" flags, the retrieved
  documents and the documents-panel toggle. Submit, file selection, the
  three inbound events (`message`, `documents`, `upload_complete`) and the
  panel toggle change it.
- **The real-time transport client** (`src/services/websocket.ts`). It keeps
  a table with at most one handler per channel and a browser socket that
  every `connect` replaces. Sends are dropped unless the socket is open.
  Inbound frames are dispatched by channel, and a close schedules a
  reconnect.
- **The simulated transport** (`src/services/mockWebSocket.ts`), which is
  the one the view actually uses. It keeps the same handler table. A query
  is answered with a canned assistant message and two canned document
  pages, and an upload with an `upload_complete` event, each after a fixed
  delay.

Files:

- `wire.dfy`: the shared records. These are messages, documents, files,
  the payload shapes of each channel, the `{type, data}` frame, and a
  handler call (`Delivery`).
- `text.dfy`: ECMAScript `trim`, used to reject blank input, and the
  decimal rendering of `Date.now()`, used for message ids.
- `chat_state.dfy`: the view state as a value. It has one function per
  transition, and lemmas about arbitrary runs of transitions.
- `app.dfy`: the view as a class. Its fields are the six state variables,
  and every handler method updates them exactly as the matching
  `ChatState` function says.
- `websocket.dfy`: the real transport client, with its socket as an object
  that has a ready state and a list of sent frames.
- `mock_websocket.dfy`: the simulated transport. Its `setTimeout` calls
  become a queue of timers with due times, and `Step` runs the next one.
- `session.dfy`: the view wired to the simulator, as the application does
  at mount. It also holds end-to-end scenarios.

Parameters stand in for the clocks, the timers and the browser:

- `now` is the `Date.now()` reading that becomes a message id.
- `time` is the `new Date()` reading that becomes a timestamp.
- Each simulator timer has a due time, and `Step` runs the earliest one.
  Among equal due times it runs the first scheduled. The simulator has no clock
  of its own. `Step` may run whenever the environment calls it, and a
  later `send` may carry a `now` earlier than the due time of a timer that
  has already run. This allows orderings the event loop cannot produce,
  which only widens what the proved properties cover.
- The browser socket's events (`SocketOpened`, `SocketClosed`,
  `ReconnectTimerFires`, `Receive`) are methods that the environment calls.

A handler is an opaque value. When a frame or timer invokes a handler, the
model returns a `Delivery` that names the handler and its argument. The
session maps each delivery to the matching `App` method.

## Behaviour kept as written

In these places the code does less than a reader might expect. The model follows the code.

- `connect` is not idempotent. Every call creates a fresh socket
  (src/services/websocket.ts:8), and the old one is not closed. The model
  keeps only the newest socket; see `WebSocketClient.WebSocketService.Connect`
  under "Left out".
- Malformed inbound frames are not guarded. `JSON.parse` is called
  unchecked (src/services/websocket.ts:11), so the code promises nothing
  for such frames and they are not modelled.
- Message ids are not unique. They are `Date.now().toString()`, so two
  messages created in the same millisecond share an id. `Text.DecimalInjective`
  states exactly when ids collide: only for equal clock readings.
- The view's messages have three roles (`user`, `assistant`, `system`), not
  the four of the shared type file.

## Model

| member | source | states |
|---|---|---|
| `Text.TrimStart` | src/App.tsx:76 | the result is a suffix of the input; what it drops is all white space; it does not start with white space |
| `Text.TrimEnd` | src/App.tsx:76 | the result is a prefix of the input; what it drops is all white space; it does not end with white space |
| `Text.Trim` | src/App.tsx:76 | `input.trim()` is a contiguous slice of the input; everything before and after it is white space; the slice neither starts nor ends with white space |
| `Text.TrimEmptyIffBlank` | src/App.tsx:76 | `input.trim()` is empty exactly when every character of the input is ECMAScript white space or a line terminator |
| `Text.Decimal` | src/App.tsx:47 | `Date.now().toString()` is a non-empty string of decimal digits without a leading zero |
| `Text.DecimalRoundTrip` | src/App.tsx:79 | reading the id string back as a decimal number gives the clock reading |
| `Text.DecimalInjective` | src/App.tsx:79 | two clock readings give the same message id if and only if they are equal |
| `ChatState.Initial` | src/App.tsx:28-38 | the mounted state has exactly one assistant greeting with id "1", empty input, no query awaited, no upload, no documents, and the panel shown |
| `ChatState.CanSubmit` | src/App.tsx:76 | the submit guard: the input has a non-white-space character and no query is awaited |
| `ChatState.SubmitGuardIsTrim` | src/App.tsx:76 | the guard as written (an empty `input.trim()`, or `isLoading`) refuses a submit if and only if `CanSubmit` does not hold |
| `ChatState.EditInput` | src/App.tsx:151 | typing replaces the input and changes nothing else |
| `ChatState.Submit` | src/App.tsx:74-90 | a submit goes through if and only if the input is not blank and no query is awaited; a refused submit changes nothing and sends nothing; an accepted one appends one user message with the untrimmed input, clears the input, sets the wait flag, and sends one `query` with `{text: input}` |
| `ChatState.SelectFiles` | src/App.tsx:92-101 | a missing or empty selection changes nothing and calls nothing; otherwise it sets the upload flag and calls `uploadFiles` with all the files in selection order |
| `ChatState.ReceiveMessage` | src/App.tsx:45-53 | a `message` event appends one assistant message with the payload's content and leaves the wait flag false whatever it was; nothing else changes |
| `ChatState.ReceiveDocuments` | src/App.tsx:55-57 | a `documents` event makes the document list exactly the payload, in order, and changes nothing else |
| `ChatState.ReceiveUploadComplete` | src/App.tsx:59-67 | an `upload_complete` event clears the upload flag and appends one system message "Documents uploaded successfully"; nothing else changes |
| `ChatState.ToggleDocuments` | src/App.tsx:176 | the toggle flips the panel flag and changes nothing else |
| `ChatState.ToggleTwice` | src/App.tsx:176 | toggling twice restores the state |
| `ChatState.DocumentsLastWins` | src/App.tsx:55-57 | a `documents` event replaces, never merges: two events in a row leave what the second alone leaves |
| `ChatState.RunExtendsLog` | src/App.tsx:42-101 | over any run of transitions the earlier message log is a prefix of the later one |
| `ChatState.StepQueryBound` | src/App.tsx:74-90 | one transition sends a query only from the idle state, and only a `message` event ends the wait |
| `ChatState.AtMostOneQueryInFlight` | src/App.tsx:76-89 | over any run, queries sent plus one if the run ends idle is at most answers received plus one if it started idle, so without an answer no second query goes out |
| `ChatState.StepLogAccounting` | src/App.tsx:42-101 | one transition adds a user message exactly when it sends a query, an assistant message exactly on `message`, and a system message exactly on `upload_complete` |
| `ChatState.RunLogAccounting` | src/App.tsx:42-101 | over any run, user messages grow by the queries sent, assistant messages by the `message` events, and system messages by the `upload_complete` events |
| `ChatState.UploadFlagStuckWithoutCompletion` | src/App.tsx:59-96 | once set, the upload flag stays set through any run that has no `upload_complete` event |
| `AppComponent.App.constructor` | src/App.tsx:28-38 | the component mounts in the initial state |
| `AppComponent.App.SetInput` | src/App.tsx:151 | the fields change as `EditInput` says |
| `AppComponent.App.HandleSubmit` | src/App.tsx:74-90 | the fields and the returned transport call are those of `Submit`; a call is made if and only if the submit is allowed; the old log is a prefix of the new one |
| `AppComponent.App.HandleFileUpload` | src/App.tsx:92-101 | the fields and the returned transport call are those of `SelectFiles` |
| `AppComponent.App.OnMessage` | src/App.tsx:45-53 | the fields change as `ReceiveMessage` says; the log only grows and the wait flag is false |
| `AppComponent.App.OnDocuments` | src/App.tsx:55-57 | the fields change as `ReceiveDocuments` says |
| `AppComponent.App.OnUploadComplete` | src/App.tsx:59-67 | the fields change as `ReceiveUploadComplete` says; the log only grows and the upload flag is false |
| `AppComponent.App.ToggleDocuments` | src/App.tsx:176 | the fields change as `ToggleDocuments` says |
| `WebSocketClient.BuildForm` | src/services/websocket.ts:34-35 | the form has one `file` entry per input file, in input order |
| `WebSocketClient.WebSocketService.constructor` | src/services/websocket.ts:2-5 | no socket, an empty handler table, and no reconnect scheduled |
| `WebSocketClient.WebSocketService.Connect` | src/services/websocket.ts:7-8 | `connect` installs a fresh socket to the service's URL in the connecting state with nothing sent, and keeps the handler table |
| `WebSocketClient.WebSocketService.On` | src/services/websocket.ts:23-25 | the handler becomes the only handler of its channel; every other channel keeps its handler or its absence |
| `WebSocketClient.WebSocketService.Send` | src/services/websocket.ts:27-31 | one `{type, data}` frame is appended to the socket's sent frames if and only if the socket is open; otherwise nothing changes |
| `WebSocketClient.WebSocketService.UploadFiles` | src/services/websocket.ts:33-38 | on an open socket, exactly one frame goes out on `upload`, carrying one `file` form entry per file in order; otherwise nothing is sent |
| `WebSocketClient.WebSocketService.SocketOpened` | src/services/websocket.ts:28 | the handshake moves a connecting socket to open, which is the state in which `send` goes out |
| `WebSocketClient.WebSocketService.SocketClosed` | src/services/websocket.ts:18-20 | a close marks the socket closed and schedules exactly one reconnect; the handler table is untouched |
| `WebSocketClient.WebSocketService.ReconnectTimerFires` | src/services/websocket.ts:19 | a scheduled reconnect runs `connect`, which gives a fresh connecting socket and keeps the handler table; with none scheduled nothing happens |
| `WebSocketClient.WebSocketService.Receive` | src/services/websocket.ts:10-16 | an inbound frame invokes the handler registered for its type, once, with its data; a frame whose type has no handler invokes nothing |
| `WebSocketClient.ReconnectKeepsHandlers` | src/services/websocket.ts:7-31 | a send before the handshake is dropped; after a close, the reconnect and a new handshake, sends go out again and a handler registered before the drop still receives its frames |
| `MockSocket.MockAnswer` | src/services/mockWebSocket.ts:20-22 | the simulated answer quotes the question's text verbatim between a fixed prefix and a fixed code-block suffix |
| `MockSocket.QueryTextOf` | src/services/mockWebSocket.ts:21 | `${data.text}` is the query's text for a query payload and the string "undefined" for any other payload |
| `MockSocket.MockDocuments` | src/services/mockWebSocket.ts:28-43 | the simulated retrieval has two pages: ids "1" then "2", page numbers 1 then 2, scores 0.95 then 0.85, and the same image and PDF |
| `MockSocket.Schedule` | src/services/mockWebSocket.ts:14-57 | `query` schedules one answer due 1000 ms later, `upload` one confirmation due 1500 ms later, and any other channel nothing |
| `MockSocket.Replies` | src/services/mockWebSocket.ts:17-55 | a query's timer calls the `message` handler with the answer and then the `documents` handler with the two pages; an upload's timer calls the `upload_complete` handler with `{}`; a channel with no handler is skipped |
| `MockSocket.Earliest` | src/services/mockWebSocket.ts:17-50 | the timer run next is due no later than any other pending timer, and is the first scheduled among those equally due |
| `MockSocket.UploadPayload` | src/services/mockWebSocket.ts:60 | the upload payload lists the file names, as many as files and in the same order |
| `MockSocket.MockWebSocketService.constructor` | src/services/mockWebSocket.ts:2-4 | an empty handler table and no pending timers |
| `MockSocket.MockWebSocketService.Connect` | src/services/mockWebSocket.ts:6-8 | `connect` changes neither the handlers nor the pending timers |
| `MockSocket.MockWebSocketService.On` | src/services/mockWebSocket.ts:10-12 | the handler becomes the only handler of its channel; other channels and the pending timers are unchanged |
| `MockSocket.MockWebSocketService.Send` | src/services/mockWebSocket.ts:14-57 | `send` appends to the pending timers exactly what `Schedule` gives, and leaves the handlers unchanged |
| `MockSocket.MockWebSocketService.UploadFiles` | src/services/mockWebSocket.ts:59-61 | one send on `upload` with the file names, which schedules exactly one confirmation 1500 ms later |
| `MockSocket.MockWebSocketService.Step` | src/services/mockWebSocket.ts:17-55 | the earliest pending timer leaves the queue and its handler calls are those of `Replies` for the handlers registered when it runs; with nothing pending nothing happens |
| `MockSocket.QueryIsAnswered` | src/services/mockWebSocket.ts:16-45 | with both reply channels registered, one query leads to exactly two handler calls, the answer and then the two pages, and leaves no timer pending |
| `MockSocket.RepliesFollowDelays` | src/services/mockWebSocket.ts:45-55 | a query sent less than 500 ms after an upload is answered first; its reply is skipped when nobody listens, and then the upload is confirmed |
| `ChatSession.Registered` | src/App.tsx:45-67 | after mounting, exactly the `message`, `documents` and `upload_complete` channels have handlers |
| `ChatSession.RepliesAreWellShaped` | src/services/mockWebSocket.ts:20-53 | every handler call the simulator makes to the view carries the payload shape that handler reads |
| `ChatSession.Handle` | src/App.tsx:45-67 | one handler call never touches the input or the panel flag; it keeps the old log as a prefix and adds at most one message; the `documents` handler adds none, and the other two add exactly one when given their payload shape |
| `ChatSession.HandleAll` | src/App.tsx:45-67 | handler calls made in order keep the input and the panel flag, keep the old log as a prefix, and add at most one message per call |
| `ChatSession.AnswerReachesView` | src/App.tsx:45-57 | a query's timer run appends the simulated answer as one assistant message, ends the wait and shows the two simulated pages; input, upload flag and panel are unchanged |
| `ChatSession.ConfirmationReachesView` | src/App.tsx:59-67 | an upload's timer run clears the upload flag and appends one system confirmation; nothing else changes |
| `ChatSession.Session.Mount` | src/App.tsx:42-68 | mounting gives the initial view state, no pending timers, and the three handlers registered |
| `ChatSession.Session.Forward` | src/App.tsx:89 | a call of the view schedules on the simulator exactly the timers that call schedules |
| `ChatSession.Session.Type` | src/App.tsx:151 | typing changes the view as `EditInput` says |
| `ChatSession.Session.Submit` | src/App.tsx:74-90 | the view changes as `Submit` says, and the simulator gains the timers of the query it sends, if it sends one |
| `ChatSession.Session.SelectFiles` | src/App.tsx:92-101 | the view changes as `SelectFiles` says, and the simulator gains the confirmation timer of the upload, if there is one |
| `ChatSession.Session.TogglePanel` | src/App.tsx:176 | the panel flag flips as `ToggleDocuments` says |
| `ChatSession.Session.Invoke` | src/App.tsx:45-67 | a handler call runs the matching view handler with the payload |
| `ChatSession.Session.Tick` | src/services/mockWebSocket.ts:17-55 | the simulator runs its next timer and the view's handlers run on its calls, in order |
| `ChatSession.AskAndAnswer` | src/App.tsx:74-90 | a non-blank question adds one user message and sets the wait; the simulated answer then adds one assistant message quoting it, clears the wait, and shows the two pages; the log grows by two |
| `ChatSession.SecondSubmitRefused` | src/App.tsx:76 | a second submit while the first query is awaited adds no message and schedules no reply |
| `ChatSession.UploadAndConfirm` | src/App.tsx:92-101 | selecting files sets the upload flag; the simulated confirmation clears it and adds exactly one system message |

## Left out

- Rendering is not modelled. This covers all JSX and the presentation
  components, `scrollIntoView` (src/App.tsx:70-72) and the reset of the
  file input's value (src/App.tsx:99-101).
- The buttons and text box that the view disables while loading or
  uploading (src/App.tsx:134, 154, 159) are not modelled. The handlers are
  modelled as written, so `HandleFileUpload` has no guard against an
  upload in progress, and `SetInput` has no guard against a query being
  awaited. Likewise the panel toggle exists only while the document list is
  non-empty (src/App.tsx:172-177), but `ToggleDocuments` and
  `Session.TogglePanel` may run in any state. This over-approximates what
  the user can do.
- Logging is not modelled. The simulator's `connect` only writes to the
  console (src/services/mockWebSocket.ts:7), so `MockWebSocketService.Connect`
  changes nothing.
- React's render scheduling and batching are not modelled. Each handler
  acts on the latest committed state, in the order the events arrive.
- JSON text is not modelled. Frames are records, and `JSON.parse`/`JSON.stringify`
  do not appear. Note that `JSON.stringify` of a `FormData` gives `{}`, so on the
  real socket the `upload` frame would carry no file data. The model keeps
  the form entries in the frame record and does not model this loss.
- WebSocketClient.WebSocketService.ReconnectTimerFires: the 1000 ms delay
  is not modelled. Reconnect callbacks are counted, not timed.
- WebSocketClient.WebSocketService.Connect: the model forgets the socket
  that a later `connect` replaces. In the browser that socket stays open,
  because the code never closes it (src/services/websocket.ts:7-20). Its
  `onmessage` keeps dispatching its frames to the shared handler table.
  When it closes, its `onclose` schedules a reconnect (line 19). That
  reconnect then replaces the current socket, possibly an open one, so
  sends are dropped until the next handshake. None of this is modelled:
  `SocketClosed` and `Receive` act on the current socket only.
- WebSocketClient.WebSocketService.Receive: it requires an open current
  socket. The browser delivers frames on every open socket, including one
  that a second `connect` replaced. Frames on such a socket are not
  modelled (see the `Connect` line above).
- The browser's `CLOSING` ready state and `error` event are not modelled.
  A close is a single step to `Closed`.
- ChatSession.Handle: a payload of a shape that the handler does not read
  leaves the view unchanged. In JavaScript the `message` handler would
  still append an assistant message whose content is `undefined`
  (src/App.tsx:48). The `documents` handler would store the payload itself,
  whatever it is, as the document list (src/App.tsx:56). The
  `upload_complete` handler ignores its payload, as modelled.
  `ChatSession.RepliesAreWellShaped` shows that the simulator never sends
  such a payload.
- MockSocket.QueryTextOf: a `query` payload that is `null` would throw in
  JavaScript. Payloads here are never null, and any other non-query
  payload reads as the text "undefined".
- Characters are Unicode scalar values. JavaScript strings are UTF-16
  code units, so a lone surrogate is not representable here.
- `src/services/socketService.ts` (the `fetch`/`EventSource` client) is not
  part of this model. It is network I/O whose only logic is concatenating
  stream chunks.
- The presentation components are not part of this model. Their numbers are
  floating point and formatting.
- `src/types.ts` is not part of this model. It only shaped the datatypes.
