# codex-api-bridge core, modelled in Dafny

codex-api-bridge puts an HTTP front end on the `codex app-server` agent. Each
user gets one agent subprocess. The bridge talks JSON-RPC with it, one JSON
object per line over stdin/stdout. It then translates the agent's notifications
into AG-UI events for a chat UI. This project models the four core files of
that bridge and proves properties of the model:

- `agui_translate.py`: tool-item classification, the argument and result
  payloads, `translate_event` with its one piece of state (`reasoning_started`),
  and the message and response builders. These are modules `ToolItems`,
  `AguiTranslate` and `AguiMessages`.
- `app_server_client.py`: the `AppServerClient` class. It has a request-id
  counter, a read loop that skips lines until the response id matches, a
  handshake, the `thread/*` calls, the turn stream, and `close`/`is_alive`.
  This is module `AppServerClient`.
- `session_manager.py`: the `SessionManager` table from user ids to sessions,
  with fast path, capacity ceiling, removal, idle eviction and shutdown. This
  is module `SessionManager`.
- `models.py`: `ChatRequest.get_prompt` and the field defaults. This is module
  `Models`.

Module `TurnPipeline` connects the client to the translator. For each way a
turn stream can end, it states what the UI receives.

Supporting modules:
- `Json` models JSON values after `json.loads`. An object is a list of
  key/value pairs in insertion order, and the last binding of a key wins. The
  module also gives the Python operations the code uses: `dict.get` with and
  without a default, truthiness, `a or b`, `str()`, and `json.dumps`.
- `Strings` gives `str.join`, splitting, and decimal rendering.
- `Wrappers` gives `Option` and `Result`.

Modelling choices:
- Imperative code stays imperative:
  - `AppServerClient.Client` and `SessionManager.SessionManager` are classes
    whose methods update their fields.
  - The read loops are `while` loops. Each is proved against a function that
    states the whole loop's outcome (`Scan`, `TurnStream`).
  - The two response builders are loops proved against list functions
    (`HistoryOf`, `AguiOf`).
- The subprocess is a `Process` object:
  - its stdout is a fixed sequence of already classified lines (blank,
    malformed JSON, or a parsed value), read through a cursor;
  - its stdin is the log of the objects written to it;
  - spawning is a parameter: `None` means the spawn failed, `Some(p)` is the
    fresh process.
- `translate_event` is the pure function `AguiTranslate.Translate`. It maps an
  event and the flag before it to the events and the flag after it.
  `AguiTranslate.TurnState.TranslateEvent` applies it to the caller's state.
- Generated uuids are `ItemRef.FreshUuid`. Timestamps, event ids and the float
  `confidence` constants are left out of the events.
- Clocks are integer parameters (`now`). So are the settings that
  `session_manager.py` reads (`max_sessions`, `idle_timeout_seconds`, the user
  home and whether creating it succeeded, the environment, the working
  directory).
- Exceptions are `Err` values: `Failure` in the client, `SessionFailure` in the
  session table.

Where the code and its own docstrings disagree, the model follows the code:
- `get_client`'s docstring (session_manager.py:49-52) says it spawns a new
  app-server subprocess when the user has none or theirs has died.
  `_create_session` (session_manager.py:103-144) only constructs the client;
  the subprocess is spawned on the client's first call. So a new session's
  client is not alive, and `SessionManager.GetClient` says so.
- Only `get_client`'s fast path calls `touch()` (session_manager.py:59-61);
  a session's idle time is measured from creation or from the last time its
  live client was handed out, not from its last request.

## Model

| member | source | states |
|---|---|---|
| Models.ChatRequest.GetPrompt | codex-api-bridge/src/models.py:30-32 | With no non-empty message the prompt is ""; with exactly one non-empty message it is that content verbatim |
| Models.NonEmptyContents | codex-api-bridge/src/models.py:32 | The filtered contents are all non-empty, each is the content of some message, and there are no more of them than messages |
| Models.NonEmptyContentsAppend | codex-api-bridge/src/models.py:32 | The filter keeps order: the contents of `a + b` are those of `a` followed by those of `b` |
| Models.PromptAppend | codex-api-bridge/src/models.py:32 | The prompt of two message lists joined is the two prompts joined by one "\n", or just one of them when the other has no non-empty message |
| Models.EmptyMessageContributesNothing | codex-api-bridge/src/models.py:32 | Inserting a message with empty content anywhere leaves the prompt unchanged, so no empty segment appears |
| Models.PromptSplitsIntoContents | codex-api-bridge/src/models.py:30-32 | When no content contains a newline, splitting the prompt at "\n" gives back exactly the non-empty contents in order (join/split round trip) |
| Models.Defaults | codex-api-bridge/src/models.py:12-28 | `role` defaults to "user", `thread_id` and `model` to none, `stream` to true |
| ToolItems.ToolItemIffToolType | codex-api-bridge/src/agui_translate.py:68-102 | An item is a tool item iff its type is one of the six tool types; every non-MCP tool item gets a name other than "" |
| ToolItems.NormalizeToolName | codex-api-bridge/src/agui_translate.py:98-102 | MCP calls report `tool` (default "unknown_mcp_tool"), mapped types their mapped name, any other type itself |
| ToolItems.ToolCallId | codex-api-bridge/src/agui_translate.py:105-106 | A present `id` is returned as it is; the call id is a fresh uuid exactly when the item has no `id` |
| ToolItems.ExtractToolArgs | codex-api-bridge/src/agui_translate.py:253-265 | Per tool type, the argument payload is the dump of {command, cwd}, {changes}, the MCP `arguments` (default {}), {query} or {tool, prompt}, each field read with its default; a non-tool item's payload is "{}" |
| ToolItems.IsToolItem | codex-api-bridge/src/agui_translate.py:94-95 | Definition: the item's `type` is one of the six tool types; `ToolItemIffToolType` states it for every item |
| ToolItems.ToolArgs | codex-api-bridge/src/agui_translate.py:253-265 | Definition: the structured argument value per tool type, {} otherwise; `ExtractToolArgs` states its dump per type |
| ToolItems.ToolResult | codex-api-bridge/src/agui_translate.py:268-283 | Definition: the result payload per tool type, "" otherwise, marking which ones are `json.dumps`-encoded; `CommandResult`, `CommandResultEndsWithMarker` and `McpResult` state it |
| ToolItems.CommandResult | codex-api-bridge/src/agui_translate.py:268-273 | A command's result is its output followed by "\n[exit code: N]" when an exit code is reported, and the output unchanged when it is absent or null |
| ToolItems.CommandResultEndsWithMarker | codex-api-bridge/src/agui_translate.py:270-273 | A command result with exit code N ends with the marker "[exit code: N]" |
| ToolItems.McpResult | codex-api-bridge/src/agui_translate.py:276-277 | An MCP result is `result` if truthy, else `error` if truthy, else "" |
| ToolItems.CommandRoundTripExample | codex-api-bridge/src/agui_translate.py:253-273 | For the command `ls` run in `/tmp`, with output "a.txt" and exit code 0, the arguments are the dump of {command: "ls", cwd: "/tmp"} and the result is "a.txt\n[exit code: 0]" |
| AguiTranslate.MethodKind | codex-api-bridge/src/agui_translate.py:453-538 | A method selects a translation rule exactly when it is one of the nine mapped methods |
| AguiTranslate.KindOfMethod | codex-api-bridge/src/agui_translate.py:431-455 | A notification that has a method and is not a request from the agent is handled by the rule its method selects |
| AguiTranslate.IgnoredMethodsAreUnmapped | codex-api-bridge/src/agui_translate.py:524-535 | Every explicitly ignored method selects no rule |
| AguiTranslate.Translate | codex-api-bridge/src/agui_translate.py:423-538 | Definition of `translate_event`: the event and the reasoning flag before it give the events and the flag after it; the lemmas below state each branch |
| AguiTranslate.TurnState.TranslateEvent | codex-api-bridge/src/agui_translate.py:423-538 | Returns the translated events and leaves `reasoning_started` at the flag the translation computes from the old flag |
| AguiTranslate.SyntheticEvents | codex-api-bridge/src/agui_translate.py:431-443 | An event without `method` and of type "error" yields error delta, error event (same message) and done, in that order; any other synthetic event yields nothing; the flag is unchanged |
| AguiTranslate.ServerRequestYieldsNothing | codex-api-bridge/src/agui_translate.py:446-451 | An event with `method` and `id` but no `result` yields nothing and leaves the flag unchanged |
| AguiTranslate.ReasoningItemTransitions | codex-api-bridge/src/agui_translate.py:461-486 | A reasoning item's start emits one reasoning start and opens the flag only when it was closed; its completion emits one reasoning end and closes the flag only when it was open |
| AguiTranslate.SummaryDeltaOpensReasoning | codex-api-bridge/src/agui_translate.py:493-499 | A summary delta emits [start, content] when closed and [content] when open; the flag is open afterwards |
| AguiTranslate.SingleEventMethods | codex-api-bridge/src/agui_translate.py:457-511 | Text deltas, tool output deltas and token usage updates each yield exactly one event carrying the notification's payload, flag unchanged |
| AguiTranslate.ToolItemEvents | codex-api-bridge/src/agui_translate.py:113-222 | A started tool item yields exactly tool_call delta, TOOL_CALL_START, TOOL_CALL_ARGS, tool_calls batch, all with the item's call id, the same name and argument payload, whose parsed arguments are the structured value; a completed one yields exactly tool_result delta, tool_results batch, TOOL_CALL_END, all with the item's call id and the same result; the flag is unchanged |
| AguiTranslate.ErrorNotificationEvents | codex-api-bridge/src/agui_translate.py:502-507 | An error notification that will be retried yields nothing; otherwise it yields error delta and error event with the same message, and no done |
| AguiTranslate.WillRetryPrecedence | codex-api-bridge/src/agui_translate.py:503 | `willRetry` decides when present; only when it is absent does `will_retry` decide |
| AguiTranslate.TurnCompletedEndsWithDone | codex-api-bridge/src/agui_translate.py:514-522 | A completed turn always ends with done, preceded by one error delta exactly when the status is "failed" |
| AguiTranslate.UnmappedMethodYieldsNothing | codex-api-bridge/src/agui_translate.py:524-538 | Ignored and unknown methods yield nothing and leave the flag unchanged |
| AguiTranslate.StateChangesOnlyOnReasoning | codex-api-bridge/src/agui_translate.py:470-499 | The flag changes only on a reasoning item's start (closed to open), its completion (open to closed), or a summary delta (closed to open) |
| AguiTranslate.DoneOnlyAtTheEnd | codex-api-bridge/src/agui_translate.py:431-538 | A done delta appears only as the last event, and only for a synthetic error or a completed turn |
| AguiTranslate.RunAlternates | codex-api-bridge/src/agui_translate.py:461-499 | For any step function that emits a reasoning marker exactly when it flips the flag, running it over notifications gives strictly alternating markers that end at the final flag |
| AguiTranslate.StepMarks | codex-api-bridge/src/agui_translate.py:461-499 | One translation step emits a reasoning marker exactly when it flips the flag, and the marker names the new state |
| AguiTranslate.ReasoningAlternates | codex-api-bridge/src/agui_translate.py:461-499 | Over any sequence of notifications, reasoning starts and ends strictly alternate, beginning with the one the initial flag allows, and the final flag matches the last of them |
| AguiTranslate.DuplicateReasoningStart | codex-api-bridge/src/agui_translate.py:470-473 | Two starts of a reasoning item from the closed state emit one reasoning start in total |
| AguiMessages.BuildersFollowWeight | codex-api-bridge/src/agui_translate.py:329-416 | Both message builders produce one message for a user or agent message, two for a tool item, none for anything else |
| AguiMessages.BuildAguiMessage | codex-api-bridge/src/agui_translate.py:329-374 | Definition of `build_agui_message`: a user or agent message, nothing for reasoning and dropped or unknown types, a call-and-result pair for a tool item; `BuildersFollowWeight`, `ToolItemsBecomePairs` and `NoMessageForReasoningOrDropped` state it |
| AguiMessages.BuildHistoryMessage | codex-api-bridge/src/agui_translate.py:377-416 | Definition of `build_openai_history_message`, the same shapes without message ids; stated by the same lemmas |
| AguiMessages.ToolItemsBecomePairs | codex-api-bridge/src/agui_translate.py:345-410 | In both forms an item becomes a call-and-result pair exactly when it is a tool item; call and result both carry the item's call id and tool name, the call carries the argument payload and the result the result payload |
| AguiMessages.NoMessageForReasoningOrDropped | codex-api-bridge/src/agui_translate.py:342-416 | Reasoning items and the dropped item types produce no message in either form |
| AguiMessages.HistoryCount | codex-api-bridge/src/agui_translate.py:584-599 | The number of history messages is the summed weight of the items |
| AguiMessages.BuildHistoryResponse | codex-api-bridge/src/agui_translate.py:582-605 | The messages are those of every item of every turn in order, `message_count` is their number and that summed weight, `chat_name` is `preview` or "New Chat" |
| AguiMessages.AguiCount | codex-api-bridge/src/agui_translate.py:550-559 | The number of AG-UI messages is the summed weight of the completed items |
| AguiMessages.BuildAguiResponse | codex-api-bridge/src/agui_translate.py:545-579 | The messages are those of the `item/completed` events in order; status is "error" iff some `turn/completed` event's turn has status "failed", else "ok" |
| AppServerClient.Process.ReadLine | codex-api-bridge/src/app_server_client.py:112-114 | Reading returns the next line and advances, or reports end of stream at the end |
| AppServerClient.Process.Write | codex-api-bridge/src/app_server_client.py:104-108 | Writing appends the message to stdin and nothing else changes |
| AppServerClient.RequestObjectShape | codex-api-bridge/src/app_server_client.py:100-102 | A request carries its method and id, and carries `params` exactly when params is truthy |
| AppServerClient.NotificationObjectShape | codex-api-bridge/src/app_server_client.py:134-136 | A notification carries its method and never an `id`, and carries `params` exactly when params is truthy |
| AppServerClient.ThreadStartParamsShape | codex-api-bridge/src/app_server_client.py:154-156 | thread/start asks for approval policy "never" and names a model exactly when a non-empty one is given |
| AppServerClient.ThreadListParamsShape | codex-api-bridge/src/app_server_client.py:194-196 | thread/list sends the limit and sort key "created_at", and a cursor exactly when a non-empty one is given |
| AppServerClient.TurnStartParamsShape | codex-api-bridge/src/app_server_client.py:240-245 | turn/start sends the thread id, the prompt as one text input, and a model exactly when a non-empty one is given |
| AppServerClient.Scan | codex-api-bridge/src/app_server_client.py:111-130 | The outcome of the read loop of `_send_request` from a cursor: the cursor only moves forward; `ScanFindsFirst` states where it stops |
| AppServerClient.ScanFindsFirst | codex-api-bridge/src/app_server_client.py:111-130 | The read loop stops at the first parsed object whose id equals the request id; every line before it is blank, malformed or a non-matching object; end of stream is reached only when every remaining line is skipped; a parsed non-object stops it with an error |
| AppServerClient.RequestRun | codex-api-bridge/src/app_server_client.py:96-107 | A request uses the counter plus one as its id, leaves the counter there, and writes exactly that request |
| AppServerClient.HandshakeWrites | codex-api-bridge/src/app_server_client.py:60-88 | The handshake writes initialize, then (if it succeeded) the `initialized` notification, then the login request exactly when an API key is set, with ids increasing by one |
| AppServerClient.HandshakeOutcome | codex-api-bridge/src/app_server_client.py:60-88 | The handshake fails when the initialize response has `error` or no response comes; it succeeds iff initialize succeeds and, when a key is set, login succeeds |
| AppServerClient.RpcResult | codex-api-bridge/src/app_server_client.py:158-163 | A call succeeds iff the response came and has no `error`; its value is the response's `result` (default {}); an error response becomes a failure carrying the error |
| AppServerClient.Handshake | codex-api-bridge/src/app_server_client.py:60-88 | The outcome of `_initialize` on the output from a cursor: the cursor only moves forward; `HandshakeWrites` and `HandshakeOutcome` state what it writes and when it fails |
| AppServerClient.TurnStream | codex-api-bridge/src/app_server_client.py:255-291 | The read loop of `turn_start_stream` from a cursor: the cursor only moves forward; the lemmas below state what it yields and where it stops |
| AppServerClient.TurnStreamLineByLine | codex-api-bridge/src/app_server_client.py:255-291 | The turn stream yields the events of each line in order; if the output ends first it yields one closed event last; otherwise it stops right at the first line that ends it |
| AppServerClient.StreamEndsAtStoppingLine | codex-api-bridge/src/app_server_client.py:255-291 | A stream that does not end on close ends right after the line that stopped it, and its last event is that line's event |
| AppServerClient.StopsAfterTurnCompleted | codex-api-bridge/src/app_server_client.py:283-288 | A stream that ends at a completed turn has just yielded the `turn/completed` notification |
| AppServerClient.StartErrorEndsStream | codex-api-bridge/src/app_server_client.py:271-274 | A stream that ends because turn/start was rejected read a line with the request id and an `error`, and yielded that error last |
| AppServerClient.Client.constructor | codex-api-bridge/src/app_server_client.py:26-36 | A new client has no process, counter 0, and is not initialized |
| AppServerClient.Client.IsAlive | codex-api-bridge/src/app_server_client.py:322-324 | Definition: a process is present and has no return code |
| AppServerClient.Client.SendRequest | codex-api-bridge/src/app_server_client.py:90-130 | Bumps the counter, writes the request, consumes lines up to the matching response, and returns what `Scan` finds |
| AppServerClient.Client.SendNotification | codex-api-bridge/src/app_server_client.py:132-140 | Writes exactly the notification object and reads nothing |
| AppServerClient.Client.Initialize | codex-api-bridge/src/app_server_client.py:60-88 | Performs the handshake; `initialized` becomes true only when the whole handshake succeeds |
| AppServerClient.Client.EnsureConnected | codex-api-bridge/src/app_server_client.py:38-58 | Does nothing when the process is alive; otherwise takes the spawned process and performs the handshake on it, or fails when the spawn failed |
| AppServerClient.Client.Call | codex-api-bridge/src/app_server_client.py:146-221 | The shared body of the `thread/*` calls: a failed spawn changes nothing; otherwise the live or spawned process stays valid and keeps its return code, the outcome, written objects, cursor and counter are `CallRun`'s, and `initialized` becomes true exactly when a handshake ran and succeeded |
| AppServerClient.Client.ThreadStart | codex-api-bridge/src/app_server_client.py:146-163 | Connects if needed and sends thread/start with `approvalPolicy` "never" and the model when given; an error response is a failure and a success gives its `result`; as for `Call`, the process keeps its return code (a live client stays alive) and `initialized` is set exactly by a successful handshake |
| AppServerClient.Client.ThreadResume | codex-api-bridge/src/app_server_client.py:165-180 | Connects if needed and sends thread/resume with the thread id; an error response is a failure and a success gives its `result`; as for `Call`, the process keeps its return code (a live client stays alive) and `initialized` is set exactly by a successful handshake |
| AppServerClient.Client.ThreadList | codex-api-bridge/src/app_server_client.py:182-203 | Connects if needed and sends thread/list with the page size (50 unless given), `sortKey` "created_at" and the cursor when given; an error response is a failure and a success gives its `result`; as for `Call`, the process keeps its return code (a live client stays alive) and `initialized` is set exactly by a successful handshake |
| AppServerClient.Client.ThreadRead | codex-api-bridge/src/app_server_client.py:205-221 | Connects if needed and sends thread/read with the thread id and `includeTurns`; an error response is a failure and a success gives its `result`; as for `Call`, the process keeps its return code (a live client stays alive) and `initialized` is set exactly by a successful handshake |
| AppServerClient.Client.TurnStartStream | codex-api-bridge/src/app_server_client.py:223-291 | Connects if needed; a failed connection yields nothing and ends with that failure; otherwise it writes turn/start with the next id and yields exactly the events of the turn stream, ending as it ends; the process keeps its return code and `initialized` is set exactly by a successful handshake |
| AppServerClient.Client.StreamTurn | codex-api-bridge/src/app_server_client.py:237-291 | Bumps the counter by one, writes turn/start with that id, and yields the events `TurnStream` computes, consuming the lines it reads; the process keeps its return code and `initialized` is unchanged |
| AppServerClient.Client.NextLine | codex-api-bridge/src/app_server_client.py:255-288 | One pass of the read loop: at end of output it stops with the closed event; otherwise it consumes one line and either stops with the whole stream accounted for or continues from a later line |
| AppServerClient.Client.HandleLine | codex-api-bridge/src/app_server_client.py:262-288 | One line yields its events (none for a blank or malformed line, the turn.started or error event for the response to the request, the notification itself otherwise) and stops the stream exactly where the stream function stops |
| AppServerClient.Client.Close | codex-api-bridge/src/app_server_client.py:310-324 | After close the client is not alive; a live process is dropped and `initialized` cleared; a dead or absent one changes nothing; the counter is kept |
| TurnPipeline.ClosedEventTranslation | codex-api-bridge/src/app_server_client.py:257-260 | The app-server closing mid-turn reaches the UI as error delta, error event, done |
| TurnPipeline.StartErrorTranslation | codex-api-bridge/src/app_server_client.py:272-274 | A rejected turn/start reaches the UI as an error carrying `str()` of the error, then done |
| TurnPipeline.TurnStartedTranslation | codex-api-bridge/src/app_server_client.py:276-280 | The synthetic turn.started event produces no UI event |
| TurnPipeline.ClosedStreamReachesDone | codex-api-bridge/src/app_server_client.py:257-260 | A stream that ends because the output closed ends with the closed event, whose translation ends in done |
| TurnPipeline.StartFailedStreamReachesDone | codex-api-bridge/src/app_server_client.py:271-274 | A stream that ends because turn/start was rejected ends with an event that translates to error delta and error event carrying `str()` of the response's error, then done |
| TurnPipeline.CompletedStreamReachesDone | codex-api-bridge/src/app_server_client.py:283-288 | A stream that ends at a completed turn ends with the turn/completed notification, which translates to events ending in done unless it is itself shaped like a request from the agent |
| SessionManager.UserSession.constructor | codex-api-bridge/src/session_manager.py:20-27 | A new session records user, client and home, and is created and last active now |
| SessionManager.UserSession.Touch | codex-api-bridge/src/session_manager.py:29-36 | Touching sets the last activity to now, so the idle time is 0 |
| SessionManager.SessionManager.constructor | codex-api-bridge/src/session_manager.py:42-46 | A new manager has no sessions, no locks and no cleanup task |
| SessionManager.SessionManager.GetUserLock | codex-api-bridge/src/session_manager.py:96-101 | The lock entry is created at most once and the same entry is returned later; sessions are untouched |
| SessionManager.SessionManager.RemoveSession | codex-api-bridge/src/session_manager.py:146-174 | Removes exactly the user's entry (a no-op if absent) and closes the removed client |
| SessionManager.SessionManager.CreateSession | codex-api-bridge/src/session_manager.py:103-144 | Fails when the user home could not be created; otherwise adds exactly one fresh session for the user with a fresh, not yet started client, and nothing else changes |
| SessionManager.SessionManager.GetClient | codex-api-bridge/src/session_manager.py:48-94 | A live session's client is returned unchanged and still alive, with only the session's activity touched; otherwise a dead session is first removed, creation is refused at capacity, and a successful creation adds one entry; other users' entries never change, and a positive `max_sessions` that the table respected before is respected after |
| SessionManager.SessionManager.ReplaceSession | codex-api-bridge/src/session_manager.py:63-94 | The slow path: the user's dead session is removed, the user's lock exists, creation is refused at capacity with the table left without the user, and a successful creation adds one fresh entry; other users' entries never change |
| SessionManager.SessionManager.CreateUnderLock | codex-api-bridge/src/session_manager.py:71-94 | Takes the user's lock, refuses at capacity with the table unchanged, and otherwise creates the session; a positive `max_sessions` the table respected before is respected after |
| SessionManager.SessionManager.RemoveAll | codex-api-bridge/src/session_manager.py:187-193 | Removing a set of users one by one leaves exactly the other entries and closes every removed client |
| SessionManager.SessionManager.CleanupIdleSessions | codex-api-bridge/src/session_manager.py:176-193 | A timeout <= 0 changes nothing; otherwise exactly the sessions idle strictly longer than the timeout are removed (and closed) and all others kept |
| SessionManager.SessionManager.Shutdown | codex-api-bridge/src/session_manager.py:220-234 | Afterwards there are no sessions and no cleanup task, and every former client is closed |

## Left out

- Concurrency is left out: `asyncio` locks, the client's `_lock`, and interleaving. Calls are modelled as sequential. Because of that, `get_client`'s re-check under the per-user lock (session_manager.py:73-77) can never fire, and it is not modelled. The lock entries are modelled only as a table. `turn_start_stream` bumping the counter without the lock is not examined.
- The background cleanup loop (`start_cleanup_loop`) and cancelling its task are left out. `Shutdown` only clears `cleanupScheduled`.
- Subprocess handling is left out: `create_subprocess_exec`, `terminate`/`kill`, and the `wait_for` timeouts. Spawning is a parameter. Closing is modelled as dropping the process. The stderr drain in `_remove_session` is best-effort logging and is not modelled.
- `check_availability` is left out. It runs `<binary> --version`, which is foreign I/O.
- Logging, uuids, timestamps and the float `confidence` values are left out. Event ids and the constant metadata fields of responses are left out too.
- JSON text is not modelled byte for byte. `Dumps` does not escape strings, and parsing is not modelled: stdout lines arrive already classified. The model assumes that `json.loads(json.dumps(v)) == v`. This is why `TOOL_CALL_ARGS.arguments` carries the structured value.
- Python raises `TypeError`/`AttributeError` when a nested field has the wrong type (for example `.get` on a list-valued `params`). The model reads such a field as an absent key. The one exception is a stdout line that parses to a non-object: there the read loop would crash, and the model ends with an error (`NotAnObject`, `BadLine`).
- AguiMessages.UserText: a non-string `text` part would make `str.join` raise. The model renders it with `str()` instead.
- AguiMessages.BuildAguiMessage: the tool message's `content` object is built from the raw result. An MCP result that is not a string may fail that object's validation. The model does not capture that failure.
- The caller abandoning the turn-stream generator early is left out. The model runs each stream to its end.
- AppServerClient.Client.TurnStartStream: an I/O error while writing is not modelled. Writes always succeed.
- ToolItemEvents: `extract_tool_call_id` draws a new uuid on every call, so the events of one `translate_event` step for a tool item without `id` carry unrelated uuids. The model writes each of them as `FreshUuid` and does not tell them apart, so "same call id" is only meaningful for items with an `id`. The message builders draw one uuid per pair, which the model does capture.
- JSON numbers are integers only (`Json.Num(int)`). Non-integer numbers are not modelled, and neither is Python's `1.0 == 1` when a response id is compared with the request id (app_server_client.py:124, 271).
- `main.py`, `user_store.py` and `config.py` are left out. They are HTTP routing, a database lookup, and configuration from the OS environment.
- `RenameRequest`, `ThreadInfo`, `ThreadsResponse`, `ThreadHistoryResponse` and `StatusResponse` in `models.py` are plain records with no logic. They are not modelled.
