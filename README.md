# shell-mcp in Dafny

A model of the core of `shell_mcp_server.py`, a Model Context Protocol (MCP) server. It
exposes one tool, `execute_command`, which runs a shell command locally or over SSH. The
model covers these parts:

- **Command filter** (`CommandFilter`). It normalises a command by stripping it, dropping
  one leading `NAME=value` word and cutting a `#` comment. It then asks for confirmation
  before an `rm` deletion. Finally it decides allow or deny: the first blacklist rule that
  hits denies, and then an enabled whitelist must match.
- **Session table** (`Sessions`). Session records are keyed by session id in insertion
  order. Each one holds its SSH client and the environment variables it keeps for local
  commands. Every lookup first evicts the records that have been idle longer than the
  timeout, and closes their clients.
- **Executors** (`Executors`). A local run gets the process environment with the call's
  variables laid over it. A remote run gets an `export k='v'; ` prefix for each variable.
  The SSH credential is chosen in this order: an existing key file, a password, the first
  existing default key.
- **Dispatcher** (`Dispatcher`). JSON-RPC routing covers `initialize`, `tools/list`,
  `tools/call` and `ping`. `execute_command` passes its gates in a fixed order: argument
  decoding, the danger check, the filter, the session lookup, the username check, then
  the run and the formatting of its result.
- **Transports** (`Transports`):
  - the per-line handling of the stdio transport;
  - POST validation for the SSE (Server-Sent Events) transport;
  - the event framing;
  - the broadcast that drops dead streams;
  - the connection reset.

Regular expressions, processes, SSH, the clock, `json.loads`/`json.dumps` and Python's
`str()` of containers are parameters of the model:

- `Engine` stands for Python's `re`.
- `World` stands for the operating system, the SSH library and the clock.
- `Codec` stands for the JSON library.
- `Net` stands for the HTTP connections.

Python values are modelled explicitly:

- A JSON value is the `Json` datatype, and `Truthy` is Python truthiness.
- A dict is a sequence of pairs kept in insertion order (`Dicts`).
- Strings are `seq<char>`, with `str.strip`, `str.split(None, 1)` and `in` written out
  (`Text`).

State that the program updates in place is held in classes:

- `Session` and `SessionManager` for the session table;
- `Server` for the filter, the engine, the session manager and the tool list;
- `StdioTransport` for the stdio transport;
- `SseTransport` for the table of open event streams.

## Model

| member | source | states |
|---|---|---|
| `CommandFilter.CompilableMembers` | shell_mcp_server.py:107-121 | a compiled rule list holds exactly the patterns that compile; the others are dropped, not fatal |
| `CommandFilter.CompilableAppend` | shell_mcp_server.py:107-121 | rules are kept in the declared order of their patterns |
| `CommandFilter.CompilableExtremes` | shell_mcp_server.py:107-121 | if every pattern compiles, nothing is dropped; if none does, the rule list is empty |
| `CommandFilter.CompileRules` | shell_mcp_server.py:107-113 | the compile loop returns the patterns that compile, in order |
| `CommandFilter.NewFilter` | shell_mcp_server.py:96-121 | the whitelist is enabled iff the raw whitelist is non-empty, even when none of its patterns compiles; both rule lists are the compilable patterns |
| `Text.SplitOnce` | shell_mcp_server.py:145 | `split(None, 1)` gives nothing iff the text is blank; the first part is a word without whitespace at the start of the stripped text; a second part starts with a non-space and is a suffix of the text |
| `CommandFilter.DropAssignment` | shell_mcp_server.py:141-148 | a stripped command stays stripped, and what is left is a tail of it: the assignment step only ever cuts off a prefix |
| `CommandFilter.DropAssignmentWords` | shell_mcp_server.py:141-148 | the command is replaced by the rest of its split iff the split has two parts and the first word holds `=` without starting with it; the guard on the whole command never decides alone |
| `CommandFilter.CutComment` | shell_mcp_server.py:150-152 | everything from the first `#` is removed and the rest is stripped; the result holds no `#` and is a piece of its input |
| `CommandFilter.ExtractMainCommand` | shell_mcp_server.py:133-154 | the main command is strip, then the assignment word dropped, then the comment cut; it is stripped, free of `#`, and a contiguous piece of the original command |
| `CommandFilter.PlainCommandIsMain` | shell_mcp_server.py:133-154 | a stripped command without `=` and `#` is its own main command |
| `CommandFilter.AnyOccurs` | shell_mcp_server.py:167-171 | the help-flag loop answers true iff some flag occurs somewhere in the text |
| `CommandFilter.CheckDangerousCommand` | shell_mcp_server.py:156-178 | flagged (with category "删除命令") iff the main command starts with optional spaces, `rm`, a space, and none of `--help`, `--version`, `-h`, `-v`, `--usage` occurs in its lower-cased text; otherwise `(False, "")` |
| `CommandFilter.ChainedDeletionNotFlagged` | shell_mcp_server.py:163-178 | a deletion chained after another command (`ls; rm -rf /`) is not flagged, because the regex is anchored at the start |
| `CommandFilter.FirstBlacklistHit` | shell_mcp_server.py:188-208 | the rules are tried in order; the position returned is the first rule that hits, and `None` means no rule hits |
| `CommandFilter.AnyWhitelistHit` | shell_mcp_server.py:211-216 | true iff some whitelist rule matches at the start or anywhere |
| `CommandFilter.Decide` | shell_mcp_server.py:180-223 | the first blacklist hit denies, with the reason naming that pattern and the rule returned; an anchored pattern is only tried at the start; with no blacklist hit the matched rule is `None`, and the command is allowed iff the whitelist is disabled or one of its rules hits, with the matching reason text |
| `CommandFilter.BlacklistHitIgnoresWhitelist` | shell_mcp_server.py:188-210 | once a blacklist rule hits, the whitelist is never consulted |
| `CommandFilter.HitSurvivesReordering` | shell_mcp_server.py:188-208 | a rule that hits in one list hits in any permutation of it |
| `CommandFilter.AllowedIgnoresBlacklistOrder` | shell_mcp_server.py:188-223 | allow or deny does not depend on the order of the blacklist; only the named rule does |
| `CommandFilter.UncompilableWhitelistDeniesAll` | shell_mcp_server.py:97-121 | a non-empty whitelist none of whose patterns compiles denies every command |
| `CommandFilter.EmptyConfigAllowsAll` | shell_mcp_server.py:221-223 | a filter built from empty lists allows everything as "命令通过过滤检查" |
| `Sessions.Session.constructor` | shell_mcp_server.py:251 | a new record: the given host and username, no SSH client, created and last-used now, an empty environment |
| `Sessions.ExpiredKeysSpec` | shell_mcp_server.py:241-245 | the expired ids are ids of the table, each listed once |
| `Sessions.EvictMembers` | shell_mcp_server.py:241-248 | eviction keeps exactly the entries idle for no longer than the timeout |
| `Sessions.EvictValid` | shell_mcp_server.py:241-248 | eviction keeps the ids distinct and each record under one id |
| `Sessions.RemoveAllValid` | shell_mcp_server.py:247-248 | deleting ids one by one keeps the ids distinct and adds nothing |
| `Sessions.RemoveAllGet` | shell_mcp_server.py:247-248 | after deleting a list of ids, those ids are absent and every other id reads as before |
| `Sessions.RemoveAllOrder` | shell_mcp_server.py:241-248 | deleting the collected expired ids one by one leaves exactly the evicted table |
| `Sessions.AppendValid` | shell_mcp_server.py:250-251 | adding a new id with a new record keeps the table well formed |
| `Sessions.SessionManager.constructor` | shell_mcp_server.py:229-231 | an empty table with the given timeout |
| `Sessions.SessionManager.CleanupSession` | shell_mcp_server.py:258-268 | the record under the id is deleted if present, and its client is the one closed; other entries keep their order |
| `Sessions.SessionManager.CollectExpired` | shell_mcp_server.py:241-245 | the ids idle for strictly longer than the timeout, in table order |
| `Sessions.SessionManager.CleanupAll` | shell_mcp_server.py:247-248 | cleaning up a list of ids deletes them in turn and closes their clients in that order |
| `Sessions.SessionManager.EvictExpired` | shell_mcp_server.py:239-248 | the table after eviction is the table without its expired entries; the clients closed are those of the expired records |
| `Sessions.SessionManager.GetSession` | shell_mcp_server.py:235-256 | it evicts first; then an existing record only has its last-used time refreshed, and an unknown id gets a fresh record appended; the record returned is the one stored under the id |
| `Sessions.SessionManager.CreateSession` | shell_mcp_server.py:250-252 | a fresh record with the given host and username, no client, timestamps now and an empty environment, appended under a new id |
| `Executors.LocalExitCode` | shell_mcp_server.py:367 | `returncode or 0`: a non-zero code is kept; no code and 0 both give 0 |
| `Executors.LocalRun` | shell_mcp_server.py:347-373 | the process gets the process environment with the call's variables laid over it; its output is kept and the exit code is 0 iff the return code is missing or 0; a process that cannot start gives exit code 1 with "本地命令执行失败: " and the error on stderr |
| `Executors.EnvPrefix` | shell_mcp_server.py:316-319 | nothing for a falsy env; each variable as an `export k='v'; ` statement for a dict; an error for any other truthy value |
| `Executors.ExportJoin` | shell_mcp_server.py:318-319 | joining the exports with `"; "` and adding a trailing `"; "` ends every statement in `"; "` |
| `Executors.SshRun` | shell_mcp_server.py:310-340 | without variables the command is sent unchanged; with a dict, the export statements come before it; the client's output and exit status come back; failures give exit code 1 with "SSH命令执行失败: " |
| `Executors.FirstExisting` | shell_mcp_server.py:296-301 | the first path (after `~` expansion) that exists, and only when no earlier one exists; `None` iff none exists |
| `Executors.FindDefaultKey` | shell_mcp_server.py:296-301 | the default-key loop stops at the first of `id_rsa`, `id_ed25519`, `id_ecdsa` that exists |
| `Executors.ChooseCredential` | shell_mcp_server.py:283-301 | an existing expanded key file wins; then a truthy password; then the first existing default key; with none of these, no credential; an error iff a truthy key file is not a string |
| `Executors.CreateSshClient` | shell_mcp_server.py:275-307 | without the SSH library the fixed "SSH功能不可用" error; otherwise the connection made with the chosen credential, and any failure gives "SSH连接失败: " and its text |
| `Dispatcher.FormatResult` | shell_mcp_server.py:647-666 | a text result that is an error iff the exit code is not 0 |
| `Dispatcher.OutputTextShape` | shell_mcp_server.py:648-664 | the text has a stdout block iff stdout is not blank, a stderr block iff stderr is not blank, then the exit code and the run time, all separated by blank lines |
| `Dispatcher.DecodeArgs` | shell_mcp_server.py:575-586 | decoding succeeds iff `arguments` is a dict holding `command`, else it fails with the KeyError or TypeError text; every argument the caller supplies is taken as it is, and a missing one gets its default: port 22, session "default", env `{}`, `force_execute` False, and None for host, username, password, key_file and cwd |
| `Dispatcher.Screen` | shell_mcp_server.py:586-629 | with `force_execute` the command passes; a non-string command fails on `strip`; a dangerous command asks for confirmation and is not an error; otherwise the call passes iff the filter allows, and is rejected with "命令被拒绝执行: " and the reason |
| `Dispatcher.DangerousBeforeRules` | shell_mcp_server.py:589-621 | a dangerous command gets the confirmation request whatever the filter and the regex engine |
| `Dispatcher.BlacklistedIsRejected` | shell_mcp_server.py:617-629 | a non-dangerous command that hits blacklist rule i first is rejected as an error naming rule i |
| `Dispatcher.ForceSkipsScreening` | shell_mcp_server.py:590-619 | with `force_execute`, no filter is consulted |
| `Dispatcher.SessionKey` | shell_mcp_server.py:632 | a string id is the key as it is; a list or dict id fails as unhashable |
| `Dispatcher.EnvUpdate` | shell_mcp_server.py:696-697 | a dict is merged in; an empty string or list changes nothing; everything else raises, with Python's text for None, int and bool |
| `Dispatcher.LocalEnvLayers` | shell_mcp_server.py:693-702 | a local command sees the call's variables first, then the session's, then the process environment |
| `Dispatcher.RemoteStep` | shell_mcp_server.py:675-691 | a live client is reused; otherwise a new client is made and kept, without closing the old one; a failed connection gives exit code 1, "远程命令执行失败: " and run time 0, and leaves the client as it was |
| `Dispatcher.LiveClientIsReused` | shell_mcp_server.py:681-687 | with a live client, how connections would be made does not change the outcome |
| `Dispatcher.FailedConnectKeepsClient` | shell_mcp_server.py:682-691 | a failed connection keeps the session's client and reports exit code 1 |
| `Dispatcher.WithId` | shell_mcp_server.py:529-530 | the id is attached iff it is not null, and nothing else changes |
| `Dispatcher.RouteFixed` | shell_mcp_server.py:501-558 | every method but `tools/call` gets a `jsonrpc` 2.0 response carrying the id iff it is not null; `initialize` gets the protocol version, capabilities and server info, `tools/list` gets the server's tool list, and `ping` with an id gets `pong` with the current time in whole seconds; nothing iff `ping` with a null id; an unknown method gets -32601 "Method not found" |
| `Dispatcher.Server.constructor` | shell_mcp_server.py:379-413 | the filter is built from the configured rules; the session table is empty with the given timeout; the tool list holds the `execute_command` and `get_tools` descriptions |
| `Dispatcher.Server.ExecuteLocal` | shell_mcp_server.py:693-704 | the merged environment is stored back in the session and the command runs with it; nothing else in the session changes |
| `Dispatcher.Server.ExecuteRemote` | shell_mcp_server.py:675-691 | the result and the session's new client are those of `RemoteStep`; nothing else in the session changes |
| `Dispatcher.Server.Run` | shell_mcp_server.py:634-666 | a host without a username is refused before any connection; otherwise the remote or local step runs and its result is formatted |
| `Dispatcher.Server.Serve` | shell_mcp_server.py:631-641 | expired records are evicted even when the session id is unhashable; a good id names a session afterwards, appended when it was new, and no other id is added or lost; a host without a username is refused after the session is made |
| `Dispatcher.Server.ExecuteCommand` | shell_mcp_server.py:573-673 | the gates in order: undecodable arguments and screened calls never touch the session table; a passing call is served as `Serve` states, on the table eviction leaves |
| `Dispatcher.Server.CallTool` | shell_mcp_server.py:560-571 | `execute_command`/`execute` always answer `{"jsonrpc": "2.0", "result": ...}` with the tool's result, and that result and the session table are what `_execute_command` promises (decode failure, screening answer, or the served call); `get_tools` lists the tools; any other name gets -32602 "Unknown tool"; only running the tool touches the sessions; a non-dict `params` raises |
| `Dispatcher.CallReply` | shell_mcp_server.py:514-539 | a tool call's response gets the id iff it is not null and keeps `jsonrpc` 2.0; an exception becomes the -32603 "Internal error: " response with the same id rule |
| `Dispatcher.FixedReply` | shell_mcp_server.py:504-532 | no method but `tools/call` raises; only an id-less `ping` gets no reply; every reply carries `jsonrpc` 2.0 and the id iff it is not null; `initialize`, `tools/list` and `ping` with an id get their fixed results; an unknown method gets -32601 "Method not found: " with the method's text |
| `Dispatcher.Server.HandleRequest` | shell_mcp_server.py:501-539 | a non-dict request raises; only an id-less `ping` gets no response; every response carries `jsonrpc` 2.0 and the id iff it is not null; any other method gets the reply `FixedReply` states; a `tools/call` gets its tool call's response with the id, and a non-dict `params` becomes -32603 "Internal error: " with the AttributeError text; only `tools/call` touches the sessions |
| `Transports.StdioTransport.HandleLine` | shell_mcp_server.py:764-794 | blank lines are skipped; an unparsable line gets -32700 with a null id; a parsed non-object is dropped; otherwise the dispatcher's response, if any, with the request's id |
| `Transports.FrameRoundTrip` | shell_mcp_server.py:1226-1237 | an `event:`/`data:` frame is read back as the event type and data it was written from |
| `Transports.ScanStreams` | shell_mcp_server.py:1304-1332 | the scan of the snapshot collects, in table order, the ids the message reached and the ids found dead |
| `Transports.DropIds` | shell_mcp_server.py:1334-1337 | deleting the dead ids that are still present leaves the table without them and keeps the ids distinct |
| `Transports.LiveMembers` | shell_mcp_server.py:1308-1337 | after a broadcast, exactly the streams that are not dead are kept |
| `Transports.WithoutDead` | shell_mcp_server.py:1334-1337 | deleting the dead ids one by one leaves the live table |
| `Transports.DeliveredNotDead` | shell_mcp_server.py:1308-1332 | a stream the message reached is never dropped |
| `Transports.Validate` | shell_mcp_server.py:1076-1097 | the body is accepted iff it is not blank (or is declared JSON), parses, is an object with `jsonrpc` "2.0" and a `method`; a blank body gets -32600 "空请求体" and a body that does not parse gets -32700 "Parse error: " with the parser's text, both with a null id; a parsed non-object gets -32600 "请求必须是 JSON 对象" (the corrected behaviour, see Findings); an object gets what `CheckFields` gives; every rejection is a 400 |
| `Transports.CheckFields` | shell_mcp_server.py:1090-1094 | the request passes unchanged iff `jsonrpc` is "2.0" and `method` is present; otherwise a 400 with -32600 carrying the request's id, and the version is checked before the method |
| `Transports.ValidateAsWritten` | shell_mcp_server.py:1087-1088 | as written, a body that parses to a non-object gets a bare 500; on every other body it agrees with `Validate` |
| `Transports.NonObjectBodyGets500` | shell_mcp_server.py:1140-1142 | the JSON body `[]` gets 500 as written, where the corrected check gives 400 -32600 |
| `Transports.CompleteKeepsDispatcherResponse` | shell_mcp_server.py:1110-1117 | filling in `jsonrpc` and `id` never changes a dispatcher response |
| `Transports.SseTransport.constructor` | shell_mcp_server.py:824-831 | no open streams |
| `Transports.SseTransport.Broadcast` | shell_mcp_server.py:1298-1340 | the ids reached, the ids dropped and the new table are those the snapshot determines; the dead streams are removed and the others keep their order; an empty table is left alone |
| `Transports.SseTransport.Reset` | shell_mcp_server.py:1048-1068 | the streams whose transport is open are ended, the table is emptied, and the reply is the fixed reset result |
| `Transports.SseTransport.HandlePost` | shell_mcp_server.py:1070-1148 | a body the corrected validation rejects gets its 400 reply and touches nothing; an id-less `ping` gets 204; any other request gets 200 with the response carrying its id, and the response is broadcast to the live streams |
| `Transports.SseTransport.Answer` | shell_mcp_server.py:1102-1133 | a validated id-less `ping`, which the dispatcher does not answer, gets 204 and leaves the streams alone; any other request gets 200 with the response carrying the request's id, and the streams left are the live ones |
| `Transports.SseTransport.Publish` | shell_mcp_server.py:1110-1133 | a dispatcher response is returned with status 200 exactly as it is, since the fill-in of `jsonrpc` and `id` changes nothing, and the streams left after broadcasting it are the live ones |

## Left out

- Regular expressions are the uninterpreted `Engine`: compiling, `match` and `search` are
  its parameters. The fixed `^\s*rm\s+` test is written out. The `except` around each rule
  match in `is_allowed` is not modelled, because the engine's functions are total.
- `CommandFilter.CheckDangerousCommand`: `str.lower` is modelled for ASCII letters only.
  The help flags are ASCII, so any other character only matters if it lower-cases to
  ASCII, which the model does not capture.
- Configuration loading (`_load_config`, shell_mcp_server.py:417-499) is not modelled.
  The filter configuration and the timeout are parameters of `Dispatcher.Server.constructor`.
- Processes, SSH connections, file existence, `~` expansion and the clock are functions
  of the `World`. A run time is an opaque text, because floating point formatting is not
  modelled. The run time 0 of a failed connection is the text "0.00".
- Logging and the `logger` warnings are left out because they do not affect any result.
- `Dispatcher.SessionKey`: an id that is not a string, list or dict (None, a number, a
  boolean) is keyed by its text. Python keys by the value itself, so the model lets `1`
  and `"1"` share a session where Python keeps them apart, and lets None and `"None"`
  share one too. The reverse also happens: Python's dict treats `True` as `1` and `False`
  as `0`, while the model keys them by the texts "True" and "1" and keeps them apart.
- `Dispatcher.EnvUpdate`: a non-empty list `env` is always an error, with an opaque text
  from the `World`. Python's `dict.update` with a list of pairs, and the partial update
  before a bad element, are not modelled.
- `Dispatcher.Server.ExecuteCommand`: the contract states the gates up to the username
  check and the ids of the session table. What the run yields once the session is known
  is stated by `Dispatcher.Server.Run`, for the record that `GetSession` returned.
- `Dispatcher.Server.Serve`: the contract states the ids of the session table, not the
  records under them. The records are stated by `Sessions.SessionManager.GetSession`.
- `Transports.StdioTransport.HandleLine`: the contract states which lines are answered
  and the id of the answer. The answer's content is stated by
  `Dispatcher.Server.HandleRequest`.
- `Transports.SseTransport.HandlePost`: the contract states the status, the id and the
  stream table. The body's content is stated by `Dispatcher.Server.HandleRequest`. It
  validates with the corrected `Transports.Validate` of the Findings table, so a body
  that parses to something other than an object gets 400 with -32600. The code as written
  answers such a body with a bare 500 (`Transports.ValidateAsWritten`).
- The stdio transport's reading thread, its queue, its one-second polling and shutdown
  events are not modelled. Neither are the SSE transport's HTTP server set-up, CORS
  `OPTIONS`, the `GET` handler that opens and registers a stream, the heartbeat,
  `_create_sse_response`, the server-info endpoint and the signal handling. These are
  concurrency and I/O around the per-message decisions the model captures.
- `_is_connection_alive` and the stream writes are observations in `Net`. Their
  attribute probing of aiohttp internals is not modelled. A failed `drain` is swallowed by
  the source and has no effect in the model either.
- A broadcast is modelled on a snapshot of the table. Streams added or removed by other
  coroutines during its awaits are not modelled.
- `json.loads`/`json.dumps` are the `Codec`, and Python's `str()` of lists and dicts is
  `World.render`.
- A dict is a list of pairs, and a lookup finds the first pair with the key. The `Codec`
  may return an object with a repeated key, where Python's `json.loads` keeps the last
  value. For the body `{"jsonrpc": "2.0", "method": "ping", "id": 1, "id": 2}` Python
  answers with id 2 and the model with id 1. Last-wins decoding of repeated keys is not
  modelled.
- The `Json` datatype has no case for floating-point numbers. A request carrying a JSON
  float (an `id` of 1.5, a `port` of 22.0) cannot be represented, so how the server treats
  one is not modelled.

## Findings

| source | as written | input that shows it | evidently intended | confidence | as-written member | corrected member |
|---|---|---|---|---|---|---|
| shell_mcp_server.py:1087-1088 | a body that parses to a non-object raises `ValueError`; the handler at line 1142 then evaluates `data.get("id")` on that list, string or number; the resulting `AttributeError` escapes every handler, so aiohttp answers with a bare 500 | POST with content type `application/json` and body `[]` | a 400 reply with JSON-RPC error -32600 "Invalid Request: 请求必须是 JSON 对象", as the validation's own message says | not executed | `Transports.ValidateAsWritten` | `Transports.Validate` |
