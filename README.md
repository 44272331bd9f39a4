# gcp-mcp transport layer in Dafny

`gcp-mcp` exposes Google Cloud tools, including a set of SSH tools, over the
Model Context Protocol. This project models the layer that carries protocol
messages between a desktop application and the server, plus the small rules
around that layer:

- **The desktop bridge** (`CloudRunMCPClient`). It joins stdin/stdout to a
  WebSocket. It fetches an identity token when none is configured. It
  forwards stdin lines while the socket is OPEN and prints the frames it
  receives. When the socket closes it reconnects, with a delay that doubles
  up to thirty seconds, for at most five attempts. The model is the class
  `DesktopClient.Client`. Its socket is an abstract ready state. Its timer is
  an explicit pending reconnect that `Fire` consumes. A rejected `connect()`
  does not run its `catch` at once: the `catch` is queued as a promise job,
  the field `queued`, and runs in `ConnectRejected`, after the 'close' that
  `ws` emits in the same turn as the error. Everything the client
  observably does is kept in logs: stdout, stderr, sent frames, handshake
  headers and the exit status.
- **The server-side adapter** (`WebSocketTransport`). It keeps three ordered
  handler lists. A frame that parses goes to the message handlers, one that
  does not goes to the error handlers, and socket events go to the close and
  error handlers. A message handler that throws cuts the walk short, and
  the error handlers are told about the throw. `start`, `send` and `close`
  are guarded by the ready state. The model is the class
  `Transport.WebSocketTransport`, with handlers as opaque ids, which message
  handlers throw given per frame, and an invocation log.
- **The pure rules.**
  - `RestServer`: the bearer-token middleware and the JSON-RPC 2.0 envelope
    of `/mcp/request`.
  - `ExtendedServer`: the ListTools answer and CallTool's name switch with
    its error mapping.
  - `SshTools`: the database command lines, and the session helpers'
    stdout-only result and disconnect guard.

`JSON.parse` and `JSON.stringify` are an abstract `Js.Codec`. Where a
property needs parsing to undo printing, the lemma requires `Reparses` of
each message involved, since the two functions invert each other only on the
values a parse produces, such as finite numbers and objects without
repeated keys.
The ready states follow the `ws` library:

- 'open' moves CONNECTING to OPEN.
- 'error' moves a socket that is not yet CLOSED to CLOSING.
- 'close' comes only once the socket has left CONNECTING, and ends in CLOSED.

The model proves four behaviours of the code that are easy to miss:

- The token `start` fetches only reaches `process.env`. Every handshake
  carries the module-level `AUTH_TOKEN` captured at load time (see
  `DesktopClient.Client.Start`).
- Each successful reconnect registers one more stdin listener. A line is
  then sent once per listener (see `DesktopClient.Client.OnLine`).
- The delay doubles only in the `catch` of a failed scheduled connect, and
  that `catch` runs after the 'close' has already scheduled the next
  reconnect. A connection that drops and never comes back therefore
  reconnects after 1, 1, 2, 4 and 8 seconds and then exits with status 1
  (see `DesktopClient.FailingEpisode` and "## Findings").
- When the first connect under `start` fails, a reconnect is scheduled and
  announced before `start`'s `catch` exits with status 1 (see
  `DesktopClient.FailedStart`).

## Model

| member | source | states |
|---|---|---|
| Js.Member | src/server.ts:112-122 | a property read finds a member the object has under that key; `undefined` means no member has that key |
| Text.NatToString | src/ssh-tools.ts:79 | a number in a template literal is written as decimal digits, with no leading zero |
| Text.IntToString | src/ssh-tools.ts:79 | a negative port is written with a leading minus sign, and only a negative one is |
| Text.NatToStringRoundTrip | src/ssh-tools.ts:79 | reading the digits back gives the number: the decimal text names the port |
| Text.IntToStringRoundTrip | src/ssh-tools.ts:82 | the signed decimal text of a port reads back to the same integer |
| Text.TrimStart | src/claude-desktop-client.ts:134 | the result is a suffix; only whitespace was cut; it starts with non-whitespace |
| Text.TrimEnd | src/claude-desktop-client.ts:134 | the result is a prefix; only whitespace was cut; it ends with non-whitespace |
| Text.Trim | src/claude-desktop-client.ts:134 | `token.trim()` never lengthens its input; `TrimIsSlice` and `TrimOfTrimmed` characterise it fully |
| Text.TrimIsSlice | src/claude-desktop-client.ts:134 | `token.trim()` is a contiguous slice of the output, cut only at whitespace, with no whitespace at either end |
| Text.TrimOfTrimmed | src/claude-desktop-client.ts:134 | a token with no surrounding whitespace is returned unchanged |
| Transport.Fanout | src/websocket-transport.ts:20-33 | `forEach` calls every handler exactly once, in registration order, with the same event |
| Transport.FanoutAppend | src/websocket-transport.ts:62-72 | a handler registered later runs after all earlier ones, and the earlier calls are unchanged |
| Transport.Notify | src/websocket-transport.ts:20 | the loop over a handler list produces exactly the fan-out of the event |
| Transport.FirstThrow | src/websocket-transport.ts:20 | the index where `forEach` stops: every handler before it returns, the one at it throws, or none throws |
| Transport.NotifyUntilThrow | src/websocket-transport.ts:18-21 | the loop calls the handlers up to and including the first that throws and hands on what it threw; with no throw it is the full fan-out |
| Transport.FrameCalls | src/websocket-transport.ts:17-25 | a malformed frame reaches every error handler; a parsed one reaches the message handlers up to the first that throws, and after a throw every error handler gets "Failed to parse message: " and what was thrown |
| Transport.SentMessageArrives | src/websocket-transport.ts:17-20 | a frame written by `send` on the peer reaches exactly the message handlers, with the original message, when the codec parses that message back and no handler throws |
| Transport.HandlerThrowIsReported | src/websocket-transport.ts:18-25 | after a throw by message handler k, only handlers 0..k received the message, then every error handler received the parse-failure text for a frame that parsed |
| Transport.WebSocketTransport.constructor | src/websocket-transport.ts:7-14 | a new transport has three empty handler lists and has written nothing |
| Transport.WebSocketTransport.OnMessage | src/websocket-transport.ts:62-64 | the handler goes at the end of the message list; nothing else changes |
| Transport.WebSocketTransport.OnClose | src/websocket-transport.ts:66-68 | the handler goes at the end of the close list; nothing else changes |
| Transport.WebSocketTransport.OnError | src/websocket-transport.ts:70-72 | the handler goes at the end of the error list; nothing else changes |
| Transport.WebSocketTransport.ReceiveFrame | src/websocket-transport.ts:17-26 | the calls made for a frame, given which message handlers throw, are exactly those `FrameCalls` names, appended in order |
| Transport.WebSocketTransport.SocketClosed | src/websocket-transport.ts:28-30 | every close handler runs once in order; the socket is CLOSED; every waiting `close()` resolves |
| Transport.WebSocketTransport.SocketError | src/websocket-transport.ts:32-34 | every error handler runs once with the error; a waiting `start()` rejects with it; the state never moves back |
| Transport.WebSocketTransport.SocketOpened | src/websocket-transport.ts:38-42 | the socket is OPEN and every waiting `start()` resolves |
| Transport.WebSocketTransport.Start | src/websocket-transport.ts:37-44 | `start()` waits iff the socket is CONNECTING and otherwise resolves at once; the ready state is untouched |
| Transport.WebSocketTransport.Send | src/websocket-transport.ts:46-60 | not OPEN: rejects with "WebSocket is not open" and writes nothing; OPEN: writes exactly the stringified message and resolves iff the write reports no error |
| Transport.WebSocketTransport.Close | src/websocket-transport.ts:74-84 | CLOSED: resolves at once without calling `ws.close()`; otherwise calls it exactly once and waits for the close event |
| DesktopClient.NextDelay | src/claude-desktop-client.ts:83 | after a failed scheduled connect the delay is doubled or capped at 30000, never above the cap and never below the old delay |
| DesktopClient.BackoffClosedForm | src/claude-desktop-client.ts:83 | after k failed scheduled connects `reconnectDelay` is min(1000 * 2^k, 30000) |
| DesktopClient.BackoffBounds | src/claude-desktop-client.ts:82-84 | the delay stays within 1000..30000 and never shrinks as failures accumulate |
| DesktopClient.BackoffSchedule | src/claude-desktop-client.ts:83 | `reconnectDelay` after 0..4 failures is 1000, 2000, 4000, 8000, 16000, and 30000 from the fifth on |
| DesktopClient.IntendedWaits | src/claude-desktop-client.ts:69-86 | the schedule the doubling evidently aims at: reconnect i waits min(1000 * 2^i, 30000) |
| DesktopClient.IntendedSchedule | src/claude-desktop-client.ts:69-86 | the intended waits of five reconnects are 1000, 2000, 4000, 8000 and 16000 ms |
| DesktopClient.WrittenWaitLags | src/claude-desktop-client.ts:69-86 | as written, reconnect i + 1 waits what reconnect i should wait, so the second reconnect waits 1000 ms instead of 2000 |
| DesktopClient.Forwarded | src/claude-desktop-client.ts:57-65 | at most one stdout line per inbound frame |
| DesktopClient.ForwardedAppend | src/claude-desktop-client.ts:57-65 | forwarding frames one by one is the same as forwarding the whole stream: arrival order is kept |
| DesktopClient.SkipsMalformed | src/claude-desktop-client.ts:62-64 | a malformed frame adds nothing to stdout and does not disturb the frames before or after it |
| DesktopClient.ForwardedPrinted | src/claude-desktop-client.ts:59-61 | frames printed by the server reach stdout exactly as sent, whenever the codec parses each of those messages back |
| DesktopClient.IdentityToken | src/claude-desktop-client.ts:123-140 | the helper succeeds iff it exits with status 0, yielding its output trimmed (a slice cut only at whitespace); otherwise "Failed to get identity token" |
| DesktopClient.Client.constructor | src/claude-desktop-client.ts:15-28 | a new client has 0 attempts, a limit of 5, a 1000 ms delay, no socket, no listeners and no queued `catch` |
| DesktopClient.Client.GetIdentityToken | src/claude-desktop-client.ts:123-140 | accumulating the stdout chunks and trimming on exit yields the token of `IdentityToken` |
| DesktopClient.Client.Connect | src/claude-desktop-client.ts:30-38 | a new CONNECTING socket whose handshake carries "Bearer " and `AUTH_TOKEN`, awaited by its caller |
| DesktopClient.Client.Start | src/claude-desktop-client.ts:106-121 | with a configured token it connects at once; otherwise a failed fetch exits with 1 and a fetched token goes to the environment while the handshake still carries "Bearer " and the empty token |
| DesktopClient.Client.FetchToken | src/claude-desktop-client.ts:109-119 | yields a token iff the helper exits with 0, the trimmed output; logs the notice, and on failure "Failed to start client: Failed to get identity token" |
| DesktopClient.Client.OnOpen | src/claude-desktop-client.ts:40-45 | 'open' resets the attempts to 0 and the delay to 1000 whatever they were; whoever awaited adds one stdin listener |
| DesktopClient.Client.OnError | src/claude-desktop-client.ts:47-50 | the error is logged and the socket is CLOSING; a pending `connect()` queues its awaiter's `catch` and nothing else changes yet |
| DesktopClient.Client.OnClose | src/claude-desktop-client.ts:52-76 | at or above the limit: exit 1, no reconnect; below it: attempts up by exactly one and a reconnect scheduled after the current delay, announced on stderr |
| DesktopClient.Client.ConnectRejected | src/claude-desktop-client.ts:79-84 | the queued `catch` runs: the timer's doubles the delay up to 30000; `start()`'s (:117-119) logs "Failed to start client: " and the error and exits with 1 |
| DesktopClient.Client.Fire | src/claude-desktop-client.ts:78-80 | the timer is consumed and a new socket connects, awaited by the timer; no `catch` can still be queued |
| DesktopClient.Client.OnMessage | src/claude-desktop-client.ts:57-65 | a frame that parses is re-serialised to stdout; a malformed one writes only its parse error to stderr |
| DesktopClient.Client.OnLine | src/claude-desktop-client.ts:88-104 | while OPEN a parsed line is sent as one stringified frame per listener; otherwise nothing is sent and each listener reports its parse error or "WebSocket not connected" |
| DesktopClient.FailedStart | src/claude-desktop-client.ts:106-121 | a failed first connect logs the error, the close and a reconnect notice for attempt 1, then "Failed to start client", and exits with 1 |
| DesktopClient.FailedRound | src/claude-desktop-client.ts:69-85 | timer, failed connect, close, then the queued `catch`: one more attempt, a reconnect after the delay as it was, and only then the delay becomes `NextDelay` of it |
| DesktopClient.RetryUntilLimit | src/claude-desktop-client.ts:69-85 | a connection that never comes back makes five reconnects, reconnect i waiting `WrittenWait(i)` |
| DesktopClient.FailingEpisode | src/claude-desktop-client.ts:69-86 | a connection that never comes back reconnects after 1000, 1000, 2000, 4000 and 8000 ms, not the intended schedule, then exits with 1 with the delay left at 16000 |
| DesktopClient.FixedReconnect.constructor | src/claude-desktop-client.ts:18-20 | the repaired reconnect logic starts with 0 attempts, a 1000 ms delay, no timer and no exit |
| DesktopClient.FixedReconnect.HandleReconnect | src/claude-desktop-client.ts:69-86 | repaired `handleReconnect`: at the limit exit 1; otherwise one more attempt, a timer at the current delay, and the delay doubled right away up to 30000 |
| DesktopClient.FixedFailingEpisode | src/claude-desktop-client.ts:69-86 | with the repair, a connection that never comes back reconnects after exactly the intended waits, 1000, 2000, 4000, 8000 and 16000 ms, then exits with 1 |
| RestServer.Authenticate | src/server.ts:27-48 | 401 Unauthorized iff the header is missing or lacks the exact "Bearer " prefix; 401 Invalid token iff the token after it is under 10 characters; `next` iff the header is "Bearer " and at least 10 more characters |
| RestServer.AcceptsBearerToken | src/server.ts:30-44 | "Bearer " plus a token passes iff the token has at least 10 characters |
| RestServer.AcceptedHeaderShape | src/server.ts:30-44 | every header that passes is "Bearer " followed by at least 10 characters |
| RestServer.OrNull | src/server.ts:122 | `id || null` keeps a truthy id and turns a missing or falsy one into `null` |
| RestServer.McpRequest | src/server.ts:110-141 | status 200 iff building the server does not throw and 500 iff it does; the three lemmas below characterise the bodies |
| RestServer.McpRequestIsResponse | src/server.ts:110-141 | both answers are JSON-RPC 2.0 responses; the id is `null` iff the request's id is missing or falsy |
| RestServer.McpRequestSuccess | src/server.ts:120-128 | status 200, "jsonrpc" "2.0", the result's message "REST endpoint implementation pending", and `method` and `params` echoed only when present |
| RestServer.PendingResultMembers | src/server.ts:122-127 | the placeholder result carries its message and holds "method" and "params" exactly as the request gave them, absent when absent |
| RestServer.McpRequestFailure | src/server.ts:130-139 | status 500 with error code -32603, "Internal error", and the thrown message or "Unknown error" |
| ExtendedServer.Describe | src/ssh-extended-tools.ts:4-67 | each `SSH_TOOLS` entry is listed under its own tool's name |
| ExtendedServer.Route | src/index-extended.ts:37-53 | the switch picks a tool only for that tool's name, and for any other name picks none |
| ExtendedServer.RouteInvertsToolName | src/index-extended.ts:37-47 | each of the five names routes to its own tool, and a tool is reached by no other name |
| ExtendedServer.ListTools | src/index-extended.ts:25-29 | ListTools returns the `SSH_TOOLS` entries in declaration order |
| ExtendedServer.ListedOnce | src/index-extended.ts:25-47 | no two ListTools entries share a name, so a CallTool name never stands for two listed tools |
| ExtendedServer.ListsEveryTool | src/index-extended.ts:25-29 | every tool of the server is listed |
| ExtendedServer.ListedNamesRoute | src/index-extended.ts:25-47 | every listed name is dispatched to the handler of the tool it describes |
| ExtendedServer.CallTool | src/index-extended.ts:32-61 | a handler runs iff the name is a tool's name; an unknown name answers "Unknown tool: " and the name; a handler's value is returned and a throw becomes an error result |
| ExtendedServer.ThrownBecomesErrorResult | src/index-extended.ts:55-59 | a thrown `Error` becomes `{error: true, message}` with its message, anything else "Unknown error occurred" |
| SshTools.QueryCommand | src/ssh-tools.ts:75-86 | fails with "Unsupported database type" iff the type is neither mysql nor postgresql; otherwise the command starts and ends with that client's template pieces |
| SshTools.CommandNamesClient | src/ssh-tools.ts:77-83 | the first word of a built command tells which database client it runs |
| SshTools.SshSession.constructor | src/ssh-tools.ts:11-16 | a new session is disconnected and has run nothing |
| SshTools.SshSession.ConnectToVm | src/ssh-tools.ts:18-51 | a failed instance lookup, a missing or empty external address, or a failed SSH connect is an error that is logged and rethrown; otherwise the session is connected to that non-empty address |
| SshTools.SshSession.ExecuteCommand | src/ssh-tools.ts:53-64 | the result is the stdout only; a non-empty stderr is logged and never returned |
| SshTools.SshSession.QueryDatabase | src/ssh-tools.ts:66-89 | an unsupported type runs and logs nothing; otherwise the built command runs, the answer is its stdout or its error, and the log gains its non-empty stderr or its execution error, as in `executeCommand` |
| SshTools.SshSession.Disconnect | src/ssh-tools.ts:110-114 | the session is disposed only when connected; otherwise nothing changes |

## Findings

| source | as written | input that shows it | evidently intended | confidence | as-written member | corrected member |
|---|---|---|---|---|---|---|
| src/claude-desktop-client.ts:69-85 | `handleReconnect` reads `reconnectDelay` when the failed handshake's 'close' arrives, before the `catch` at :82-84 doubles it, so each doubling takes effect one reconnect late | an OPEN connection that drops and refuses every reconnect: the waits are 1000, 1000, 2000, 4000, 8000 ms | each failure doubles the wait of the next reconnect: 1000, 2000, 4000, 8000, 16000 ms | medium, not executed; it rests on `ws` emitting 'close' in the same turn as the handshake error, and on promise jobs running after that turn | DesktopClient.FailingEpisode | DesktopClient.FixedFailingEpisode |

## Left out

- The `ws` library, `readline`, `express` routing and listening, the HTTP server and the health endpoints: sockets are abstract ready states with event methods, and streams are append-only logs.
- `process.exit`: it is the `exitCode` field. Handlers that could still run after an exit are not modelled; every event method requires that no exit has happened.
- `spawn('gcloud', ...)`: it is its stdout chunks plus its exit status, passed in. The process's 'error' event is not modelled.
- `setTimeout` timing and real waiting: the model keeps the scheduled delay and an explicit `Fire`.
- Secret Manager, the Compute API and `node-ssh`: they are foreign calls. `ConnectToVm` takes what the instance lookup, the API's address and the SSH connect reported as parameters. `createSSHTunnel` only forwards to `node-ssh` and is not part of this model.
- src/ssh-extended-tools.ts handlers: they only pass arguments through. Only the names, descriptions and required arguments of `SSH_TOOLS` are modelled, not the property schemas.
- `JSON.parse` and `JSON.stringify`: they are an abstract codec. Error objects in log lines are shown by their message, and parse errors by the text the codec reports.
- Events of a socket that a reconnect has already replaced, and concurrent delivery of events: only the current socket is modelled, one event at a time. The 'close' after an error and the queued `catch` may come in either order in the model; the episodes use the order `ws` follows for a refused connection.
- The promise job that runs `setupStdinHandler` after a successful `await this.connect()` is folded into `OnOpen`: no stdin line can arrive between the two.
- Re-entrant handlers, for example a handler that registers another handler while the list is being walked: handlers are opaque ids.
- Transport.WebSocketTransport.ReceiveFrame: only message handlers may throw. An error handler that throws inside the `catch`, and close or error handlers that throw during a socket event, let the exception escape the `ws` listener; that is not modelled.
- String lengths: JavaScript counts UTF-16 code units and the model counts characters, so the token length check differs only for characters outside the Basic Multilingual Plane.
- SshTools.QueryCommand: the contract pins each command's leading and trailing template pieces and the exact text comes from the definition, because a single ensures with every piece concatenated only repeats it. The `port` argument is treated as an integer written in decimal; fractional and exponent forms of a JavaScript number are not modelled.
- DesktopClient.Client.Valid: the delay is kept within 1000..30000 and a scheduled timer's delay is not tied to the current delay; the exact schedule of a failing episode is proved separately by `RetryUntilLimit` and `FailingEpisode`.
- DesktopClient.FixedReconnect: the repaired reconnect logic keeps only the attempt count, the delay, the timer and the exit status. The socket events around each reconnect and the stderr notices are not repeated there, because the repair does not change them.
- The database query is not escaped for the shell. The model records the command line as built and proves nothing about quoting.
