# websocket_frontend — a Dafny model of the client-side logic

The repository is a browser dashboard with three pieces of sequential logic
under its markup. Each becomes a pure state-transition function here:

- **ChatSession** (`chat_session.dfy`, from `app/page.tsx`). This is the chat page's connection manager.
  - The page state is `connected`, `loading`, `sessionId`, the two input buffers, the transcript, the sockets the page created, and the socket reference it holds (`held`).
  - Every user action and every socket callback is an `Event`. `Step` returns the next `Page` plus the `Effect`s the handler performs: open a socket, send a frame, close a socket, or raise an alert.
  - Inbound messages arrive already decoded, as `Decoded(type, data)` or `Malformed`. Outbound messages are `Frame` values.
  - Each socket records the greeting frame its open handler was created with: `connect`, or `connect_id` with the session id typed at creation time.
- **Metrics** (`metrics.dfy`, from `app/benchmarks/page.tsx`). This is the benchmark feed.
  - On mount the page opens one socket. Its open handler sends `{type: "benchmark"}` and ends loading.
  - Each payload that parses becomes one `Sample` in a FIFO window of capacity `MaxDataPoints` = 20. A payload that does not parse is skipped.
  - A `cpu` or `memory` field that is missing or not a number is `None` in the sample. That sample still takes a slot in the window.
  - Close only forgets the socket.
- **SendCard** (`send_card.dfy`, from `components/SendCard.tsx`). This is a simulated chat card with no network.
  - It holds an append-only transcript, an input buffer, an `isConnected` flag and a message counter.
  - Send is refused when the input is blank after JavaScript's `trim()` or when the card is disconnected.
  - Disconnect clears the flag and appends a server notice.
- **Wrappers** (`wrappers.dfy`) holds `Option`, which models a JSON field that may be `undefined`.

Quirks of the code that the model keeps:

- `loading` on the chat page is never set to `true`; only `setLoading(false)` is ever called. So `!loading` is part of the page invariant `ChatSession.Valid`, and there is no separate "connecting" state.
- `handleDisconnect` sends `disconnect` and closes the socket only when a socket is held. It always clears `connected` and resets `sessionId` to `""`.
- `connectWithID` on a held socket marks the page connected at once. Without a held socket, it waits for the new socket's open handler. The model keeps this asymmetry.
- `connect` does not check for an existing socket. Every `onclose` clears `connected` and the held reference, even when the socket that closed is not the held one.
- Server entries take `data` as is. When the field is absent, the entry's content (or the session id) is `None`.

## Model

| member | source | states |
|---|---|---|
| ChatSession.Init | app/page.tsx:23-30 | The page starts disconnected, with no socket, an empty transcript and session id `""`, and satisfies the page invariant |
| ChatSession.Append | app/page.tsx:43-46 | The transcript append rule: one entry with id equal to the old length is added at the end, the old prefix is unchanged, and ids stay equal to positions |
| ChatSession.Receive | app/page.tsx:32-49 | Inbound dispatch: `connect_id` sets the session id to exactly its `data` and leaves the transcript and `connected` alone; `connect_id_error` only alerts; any other type appends one server entry with id equal to the old length; a payload that does not parse changes nothing |
| ChatSession.Connect | app/page.tsx:51-66 | A new session creates one socket whose open handler will send `connect`; nothing else in the page changes until it opens |
| ChatSession.ConnectWithId | app/page.tsx:68-92 | With a held socket, one `connect_id` frame carrying the typed id is sent and `connected` is set immediately; without one, only a new socket with that greeting is created |
| ChatSession.HandleDisconnect | app/page.tsx:94-99 | Disconnect always clears `connected` and the session id, and emits `disconnect` plus a close only when a socket is held; that socket starts closing but stays held until its close event |
| ChatSession.DisconnectThenLateMessage | app/page.tsx:94-99 | After a disconnect, a message on the closing socket is not delivered and the transcript is unchanged |
| ChatSession.HandleSend | app/page.tsx:100-113 | With a held socket, exactly one `message` frame with the input is sent (even an empty input), one client entry is appended and the input is cleared; without a socket, only an alert is raised and no state changes |
| ChatSession.OnOpen | app/page.tsx:53-58 | Opening a connecting socket ends loading, marks the page connected, holds that socket and sends the greeting it was created with; no other socket changes |
| ChatSession.OnClose | app/page.tsx:62-65 | Closing any live socket clears only `connected` and the held reference and marks only that socket closed; session id, transcript and inputs are kept |
| ChatSession.Step | app/page.tsx:139-141 | Each button and socket callback runs its own handler (lines 144, 153, 208, 213 and 53-65, 78-90); typing in the session-id box sets only `inputId`, and typing in the message box (line 203) sets only `inputMessage`; a message on a socket that is not open changes nothing, while one on an open socket goes through the inbound dispatch wired up at lines 60 and 85 |
| ChatSession.StepPreservesValid | app/page.tsx:32-113 | Every event keeps ids equal to positions, `loading` false, `connected` implying a held socket, and the held socket open or closing |
| ChatSession.RunPreservesValid | app/page.tsx:32-113 | The page invariant holds after any sequence of events |
| ChatSession.StepAppendOnly | app/page.tsx:43-46 | No event removes or rewrites a transcript entry |
| ChatSession.RunAppendOnly | app/page.tsx:105-108 | Over any sequence of events the old transcript stays a prefix of the new one |
| ChatSession.ConnectWithIdThenOpen | app/page.tsx:76-83 | Joining by id without a socket leaves the page disconnected until the open event, which connects it and sends the same `connect_id` frame |
| ChatSession.TypeThenSendWhileConnected | app/page.tsx:100-109 | On a connected page, typing a text and sending it emits exactly `{type: "message", data: text}` on the held socket and appends a client entry with that text |
| ChatSession.NewSessionThenServerMessage | app/page.tsx:42-46 | New session, open, then a server `chat` message "hi" gives the transcript `[{id: 0, content: "hi", sender: server}]` |
| Metrics.Mount | app/benchmarks/page.tsx:18-20 | The page starts with an empty window, loading, no held socket, and one socket being opened |
| Metrics.Push | app/benchmarks/page.tsx:40-43 | Below capacity the update is `old + [p]`; at or above capacity the update is `old[1..] + [p]`, so a full window stays at 20; the new sample is last and the kept samples are a suffix of the old window in order |
| Metrics.PushRecent | app/benchmarks/page.tsx:40-43 | Pushing onto the last 20 samples of a history gives the last 20 samples of the extended history |
| Metrics.OnMessage | app/benchmarks/page.tsx:30-49 | A payload that does not parse leaves the window and the socket unchanged; a parsed one pushes a sample whose cpu and memory are copied verbatim, with no clamping, and absent when the payload's fields are not numbers |
| Metrics.Step | app/benchmarks/page.tsx:24-52 | Open sends exactly one `benchmark` frame and ends loading; close clears only the socket reference and reconnects nothing; a message runs the message handler and nothing else, so it never closes or reopens the socket |
| Metrics.StepKeepsRecent | app/benchmarks/page.tsx:30-49 | Each event keeps the window equal to the last 20 samples received |
| Metrics.RunKeepsRecent | app/benchmarks/page.tsx:30-49 | After any sequence of events the window is exactly the last 20 samples received, in arrival order |
| Metrics.WindowBounded | app/benchmarks/page.tsx:7 | From mount, the window never holds more than 20 samples and holds the most recent ones in order |
| Metrics.TwentyFirstEvictsFirst | app/benchmarks/page.tsx:41-43 | After a 21st sample arrives, the first sample is gone and the other twenty keep their order |
| SendCard.AddMessage | components/SendCard.tsx:23-26 | Exactly one message is added at the end, stamped with the counter; earlier messages are unchanged and the counter goes up by one |
| SendCard.Mount | components/SendCard.tsx:13-21 | After mount the card is connected and holds exactly one server welcome message |
| SendCard.TrimStart | components/SendCard.tsx:29 | Leading-whitespace removal returns a suffix of the input with only whitespace removed, and it does not start with whitespace |
| SendCard.TrimEnd | components/SendCard.tsx:29 | Trailing-whitespace removal returns a prefix of the input with only whitespace removed, and it does not end with whitespace |
| SendCard.TrimEmptyIffBlank | components/SendCard.tsx:29 | `trim()` of the input is empty exactly when every character is JavaScript whitespace |
| SendCard.HandleSend | components/SendCard.tsx:28-38 | A blank input or a disconnected card changes nothing; otherwise one client message with the untrimmed input is appended and the input is cleared |
| SendCard.HandleDisconnect | components/SendCard.tsx:40-43 | Disconnect clears `isConnected` and appends exactly one server notice |
| SendCard.Step | components/SendCard.tsx:66-81 | Typing replaces only the input buffer; the Send and Disconnect buttons run the send and disconnect handlers |
| SendCard.RunKeepsCounted | components/SendCard.tsx:23-26 | The counter always equals the number of messages added |
| SendCard.DisconnectedSendsAreNoOps | components/SendCard.tsx:29 | Once disconnected, no sequence of sends and edits adds a message or reconnects the card |
| SendCard.DisconnectThenAnything | components/SendCard.tsx:29-43 | After a disconnect, every later send is a no-op, so the transcript ends with the one disconnect notice |

## Left out

- Rendering, JSX, styling and `components/Navbar.tsx`: these are markup with no logic.
- The WebSocket transport, `JSON.parse`/`JSON.stringify` and the `process.env` URL lookup. Inbound messages are already decoded, outbound frames are datatype values, and socket identity is the index in the page's socket table.
- `copyToClipboard` (app/page.tsx:114-122). It only calls the clipboard and `alert`, which are foreign side effects.
- `console.*` logging. `alert` appears only as an `Alert` effect carrying its text.
- `new Date().toLocaleTimeString()` and the chart tick formatter. The sample timestamp is an opaque string that arrives with the event.
- JSON numbers are modelled as `real`, and a non-numeric `cpu` or `memory` field is modelled as `None`. Floating-point rounding and the exact non-numeric value are not modelled.
- Metrics.OnMessage: the read of `data.data.cpu` happens inside the deferred `setData` callback, outside the `try`. A payload that parses but lacks `data` is not modelled; only parse failure is the skip case.
- The SendCard `setTimeout` echo (components/SendCard.tsx:34-36). It is timer-driven. React's stale-closure capture of `messageId` is also not modelled, so nothing is claimed about SendCard ids being unique. Only the counter/length relation is claimed, and it survives stale closures because both updates are functional.
- SendCard.TrimStart: characters are Unicode scalar values rather than UTF-16 code units. The JavaScript whitespace set is listed by code point, so the two views agree for `trim()`.
- React state batching: every event is applied to the state left by the previous one.
- The browser's socket guarantees are approximated by socket phases (connecting, open, closing after the page's own `close()`, closed). Callbacks for sockets that were never created, or that are in a phase where the browser would not fire them, change nothing.
