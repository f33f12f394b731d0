/** `TerminalMCPServer` (shell_mcp_server.py:376-704): JSON-RPC method routing, tool routing
    and the fixed-order gate of `execute_command`. */
module Dispatcher {
  import opened Wrappers
  import opened Text
  import opened Dicts
  import opened JsonValues
  import opened CommandFilter
  import opened Sessions
  import opened Executors

  const CommandFailed := "命令执行失败: "
  const CommandRejected := "命令被拒绝执行: "
  const UsernameRequired := "远程执行需要提供username参数"
  const Version := JStr("2.0")

  // ---------------------------------------------------------------- results

  /** What `execute_command` returns: a text block with its error flag, or the confirmation
      request for a dangerous command. */
  datatype ToolResult = Text(text: string, isError: bool) | Confirm(command: string, category: string)

  predicate IsError(r: ToolResult) {
    r.Text? && r.isError
  }

  /** The confirmation request shown for a dangerous command, with the command quoted twice. */
  function WarningText(command: string, category: string): string {
    "\U{26A0}\U{FE0F} **危险命令警告**\n\n检测到危险操作：`" + command + "`\n\n**命令类型**: " + category
    + "\n**风险说明**: 此操作可能导致数据丢失或系统损坏\n\n**如需执行此命令，请确认后使用 `force_execute=true` 参数重新提交。**"
    + "\n\n示例：\n```json\n{\n  \"command\": \"" + command + "\",\n  \"force_execute\": true\n}\n```"
  }

  function TextBlock(text: string): Json {
    JArr([JObj([("type", JStr("text")), ("text", JStr(text))])])
  }

  /** The dict `execute_command` returns for a result. */
  function ToolResultJson(r: ToolResult): Json {
    match r
    case Text(text, isError) => JObj([("content", TextBlock(text)), ("isError", JBool(isError))])
    case Confirm(command, category) =>
      JObj([("content", TextBlock(WarningText(command, category))),
            ("requires_confirmation", JBool(true)),
            ("dangerous_command", JStr(command)),
            ("isError", JBool(false))])
  }

  /** The parts of the result text, as `execute_command` collects them: output blocks only for
      output that is not blank, then the exit code and the run time. */
  function OutputParts(r: ExecuteResult): seq<string> {
    (if Strip(r.stdout) != [] then ["标准输出:\n" + r.stdout] else [])
    + (if Strip(r.stderr) != [] then ["标准错误:\n" + r.stderr] else [])
    + ["退出码: " + IntToString(r.exitCode), "执行时间: " + r.elapsed + "秒"]
  }

  function OutputText(r: ExecuteResult): string {
    Join(OutputParts(r), "\n\n")
  }

  /** The tool result of a run: an error exactly when the exit code is not 0. */
  function FormatResult(r: ExecuteResult): (result: ToolResult)
    ensures result.Text? && (IsError(result) <==> r.exitCode != 0)
  {
    Text(OutputText(r), r.exitCode != 0)
  }

  lemma JoinCons(x: string, t: seq<string>, sep: string)
    requires t != []
    ensures Join([x] + t, sep) == x + sep + Join(t, sep)
  {
    assert ([x] + t)[1..] == t;
  }

  /** `sep.join` of optional leading parts and two final ones. */
  lemma JoinParts(outs: seq<string>, errs: seq<string>, code: string, time: string, sep: string)
    requires |outs| <= 1 && |errs| <= 1
    ensures Join(outs + errs + [code, time], sep) ==
              (if outs == [] then [] else outs[0] + sep) + (if errs == [] then [] else errs[0] + sep)
              + (code + sep + time)
  {
    var tail := [code, time];
    assert Join(tail, sep) == code + sep + time by {
      JoinCons(code, [time], sep);
      assert [code] + [time] == tail;
    }
    var mid := errs + tail;
    assert Join(mid, sep) == (if errs == [] then [] else errs[0] + sep) + Join(tail, sep) by {
      if errs != [] {
        assert mid == [errs[0]] + tail;
        JoinCons(errs[0], tail, sep);
      }
    }
    assert outs + errs + tail == outs + mid;
    assert Join(outs + mid, sep) == (if outs == [] then [] else outs[0] + sep) + Join(mid, sep) by {
      if outs != [] {
        assert outs + mid == [outs[0]] + mid;
        JoinCons(outs[0], mid, sep);
      }
    }
  }

  /** The result text has a stdout block exactly when stdout is not blank, a stderr block
      exactly when stderr is not blank, and always the exit code and the run time, in that
      order, separated by blank lines. */
  lemma OutputTextShape(r: ExecuteResult)
    ensures var sep := "\n\n";
            OutputText(r) ==
              (if IsBlank(r.stdout) then [] else "标准输出:\n" + r.stdout + sep)
              + (if IsBlank(r.stderr) then [] else "标准错误:\n" + r.stderr + sep)
              + ("退出码: " + IntToString(r.exitCode) + sep + ("执行时间: " + r.elapsed + "秒"))
  {
    var sep := "\n\n";
    var outs := if Strip(r.stdout) != [] then ["标准输出:\n" + r.stdout] else [];
    var errs := if Strip(r.stderr) != [] then ["标准错误:\n" + r.stderr] else [];
    var code, time := "退出码: " + IntToString(r.exitCode), "执行时间: " + r.elapsed + "秒";
    assert OutputText(r) == Join(outs + errs + [code, time], sep);
    JoinParts(outs, errs, code, time, sep);
    assert (if outs == [] then [] else outs[0] + sep) == (if IsBlank(r.stdout) then [] else "标准输出:\n" + r.stdout + sep) by {
      StripBlank(r.stdout);
    }
    assert (if errs == [] then [] else errs[0] + sep) == (if IsBlank(r.stderr) then [] else "标准错误:\n" + r.stderr + sep) by {
      StripBlank(r.stderr);
    }
  }

  // ---------------------------------------------------------------- arguments

  /** The arguments of `execute_command` after `args["command"]` and the `args.get` calls. */
  datatype Call = Call(
    command: Json, host: Json, username: Json, password: Json, keyFile: Json,
    port: Json, session: Json, env: Json, cwd: Json, force: Json)

  /** `arguments.get(key, default)` read back: a supplied value is taken as it is, a missing
      key gives the default. */
  predicate Supplied(fields: Dict<Json>, key: string, default: Json, v: Json) {
    && (Get(fields, key).Some? ==> v == Get(fields, key).value)
    && (Get(fields, key).None? ==> v == default)
  }

  /** `args["command"]` on whatever the caller sent as `arguments`: the KeyError or TypeError
      text when it cannot be read, else the call with every other argument defaulted. */
  function DecodeArgs(args: Json): (r: Result<Call, string>)
    ensures r.Ok? <==> args.JObj? && Get(args.fields, "command").Some?
    ensures args.JObj? && r.Err? ==> r.error == "'command'"
    ensures r.Ok? ==> r.value.command == Get(args.fields, "command").value
    ensures r.Ok? ==> && Supplied(args.fields, "host", JNull, r.value.host)
                      && Supplied(args.fields, "username", JNull, r.value.username)
                      && Supplied(args.fields, "password", JNull, r.value.password)
                      && Supplied(args.fields, "key_file", JNull, r.value.keyFile)
                      && Supplied(args.fields, "port", JInt(22), r.value.port)
                      && Supplied(args.fields, "session", JStr("default"), r.value.session)
                      && Supplied(args.fields, "env", JObj([]), r.value.env)
                      && Supplied(args.fields, "cwd", JNull, r.value.cwd)
                      && Supplied(args.fields, "force_execute", JBool(false), r.value.force)
  {
    match args
    case JObj(fs) =>
      (match Get(fs, "command")
       case None => Err("'command'")
       case Some(c) =>
         Ok(Call(c, GetOr(fs, "host", JNull), GetOr(fs, "username", JNull), GetOr(fs, "password", JNull),
                 GetOr(fs, "key_file", JNull), GetOr(fs, "port", JInt(22)), GetOr(fs, "session", JStr("default")),
                 GetOr(fs, "env", JObj([])), GetOr(fs, "cwd", JNull), GetOr(fs, "force_execute", JBool(false)))))
    case JArr(_) => Err("list indices must be integers or slices, not str")
    case JStr(_) => Err("string indices must be integers, not 'str'")
    case _ => Err("'" + TypeName(args) + "' object is not subscriptable")
  }

  /** The first two gates of `execute_command`, before any session is looked up: unless
      `force_execute` is truthy, a dangerous command asks for confirmation, and otherwise a
      command the filter refuses is rejected. `None` lets the call through. */
  function Screen(f: Filter, e: Engine, call: Call): (r: Option<ToolResult>)
    ensures Truthy(call.force) ==> r == None
    ensures !Truthy(call.force) && !call.command.JStr? ==>
              r == Some(Text(CommandFailed + NoAttributeText(call.command, "strip"), true))
    ensures !Truthy(call.force) && call.command.JStr? && CheckDangerousCommand(call.command.s).0 ==>
              r == Some(Confirm(call.command.s, DeletionCategory)) && !IsError(r.value)
    ensures !Truthy(call.force) && call.command.JStr? && !CheckDangerousCommand(call.command.s).0 ==>
              (r.None? <==> IsAllowed(f, e, call.command.s).allowed)
              && (r.Some? ==> r.value == Text(CommandRejected + IsAllowed(f, e, call.command.s).reason, true))
  {
    if Truthy(call.force) then None
    else if !call.command.JStr? then Some(Text(CommandFailed + NoAttributeText(call.command, "strip"), true))
    else
      var danger := CheckDangerousCommand(call.command.s);
      if danger.0 then Some(Confirm(call.command.s, danger.1))
      else
        var d := IsAllowed(f, e, call.command.s);
        if d.allowed then None else Some(Text(CommandRejected + d.reason, true))
  }

  /** A dangerous command is answered with the confirmation request whatever the rules say:
      the danger test comes before the blacklist. */
  lemma DangerousBeforeRules(f: Filter, g: Filter, e: Engine, e': Engine, call: Call)
    requires !Truthy(call.force) && call.command.JStr? && CheckDangerousCommand(call.command.s).0
    ensures Screen(f, e, call) == Screen(g, e', call)
    ensures Screen(f, e, call).Some? && !IsError(Screen(f, e, call).value)
  {
  }

  /** Without `force_execute`, a command whose main part hits a blacklist rule and is not
      dangerous is rejected as an error naming that rule. */
  lemma BlacklistedIsRejected(f: Filter, e: Engine, call: Call, i: nat)
    requires !Truthy(call.force) && call.command.JStr? && !CheckDangerousCommand(call.command.s).0
    requires FirstHitAt(e, f.blacklistRules, ExtractMainCommand(call.command.s), i)
    ensures Screen(f, e, call) == Some(Text(CommandRejected + (BlacklistDenied + f.blacklistRules[i]), true))
  {
    var d := IsAllowed(f, e, call.command.s);
    assert d == Decision(false, BlacklistDenied + f.blacklistRules[i], Some(f.blacklistRules[i]));
  }

  /** With `force_execute` the filter is never consulted: any two filters let the call through. */
  lemma ForceSkipsScreening(f: Filter, g: Filter, e: Engine, call: Call)
    requires Truthy(call.force)
    ensures Screen(f, e, call) == Screen(g, e, call) == None
  {
  }

  /** The session table key: ids that are strings are used as they are; lists and dicts cannot
      be dict keys; any other id is keyed by its text. */
  function SessionKey(id: Json, w: World): (r: Result<string, string>)
    ensures id.JStr? ==> r == Ok(id.s)
    ensures r.Err? <==> id.JArr? || id.JObj?
    ensures r.Err? ==> r.error == "unhashable type: '" + TypeName(id) + "'"
  {
    match id
    case JStr(s) => Ok(s)
    case JArr(_) => Err("unhashable type: 'list'")
    case JObj(_) => Err("unhashable type: 'dict'")
    case _ => Ok(Str(id, w.render))
  }

  // ---------------------------------------------------------------- running

  /** `session_env.update(env)`: a dict is merged in, later keys winning; an empty string or
      list changes nothing; anything else raises, with the text Python gives. */
  function EnvUpdate(localEnv: Dict<Json>, env: Json, w: World): (r: Result<Dict<Json>, string>)
    ensures r.Ok? <==> env.JObj? || env == JStr([]) || env == JArr([])
    ensures env.JObj? ==> r == Ok(Update(localEnv, env.fields))
    ensures env == JStr([]) || env == JArr([]) ==> r == Ok(localEnv)
    ensures env.JNull? || env.JInt? || env.JBool? ==> r == Err("'" + TypeName(env) + "' object is not iterable")
  {
    match env
    case JObj(fs) => Ok(Update(localEnv, fs))
    case JStr(s) => if s == [] then Ok(localEnv) else Err("dictionary update sequence element #0 has length 1; 2 is required")
    case JArr(a) => if a == [] then Ok(localEnv) else Err(w.updateError(env))
    case _ => Err("'" + TypeName(env) + "' object is not iterable")
  }

  /** The variables a local command sees: the call's own first, then those kept in the
      session, then the server's environment. */
  lemma LocalEnvLayers(osEnv: Dict<Json>, localEnv: Dict<Json>, env: Dict<Json>, w: World, k: string)
    requires DistinctKeys(localEnv) && DistinctKeys(env)
    ensures EnvUpdate(localEnv, JObj(env), w).Ok?
    ensures var merged := EnvUpdate(localEnv, JObj(env), w).value;
            && DistinctKeys(merged)
            && Get(merged, k) == (if k in Keys(env) then Get(env, k) else Get(localEnv, k))
            && Get(Update(osEnv, merged), k) ==
                 if k in Keys(env) then Get(env, k)
                 else if k in Keys(localEnv) then Get(localEnv, k)
                 else Get(osEnv, k)
  {
    var merged := Update(localEnv, env);
    UpdateGet(localEnv, env, k);
    UpdateDistinct(localEnv, env);
    UpdateGet(osEnv, merged, k);
    UpdateKeys(localEnv, env);
  }

  /** `_execute_local_command` as a value: the merged environment it keeps in the session and
      the result of running the command with it. */
  function LocalStep(localEnv: Dict<Json>, w: World, call: Call): Result<(ExecuteResult, Dict<Json>), string> {
    match EnvUpdate(localEnv, call.env, w)
    case Err(e) => Err(e)
    case Ok(merged) => Ok((LocalRun(w, call.command, merged, call.cwd), merged))
  }

  /** `_execute_remote_command` as a value: the session's client is reused while its transport
      is active, otherwise a new client is created and kept (the old one is not closed); a
      client that cannot be created ends the run as exit code 1 with a zero run time. */
  function RemoteStep(client: Option<SshClient>, w: World, call: Call): (r: (ExecuteResult, Option<SshClient>))
    ensures client.Some? && w.alive(client.value) ==> r == (SshRun(w, client.value, call.command, call.env), client)
    ensures !(client.Some? && w.alive(client.value)) ==>
              var made := CreateSshClient(w, call.host, call.username, call.keyFile, call.password, call.port);
              && (made.Ok? ==> r == (SshRun(w, made.value, call.command, call.env), Some(made.value)))
              && (made.Err? ==> r == (ExecuteResult([], RemoteFailed + made.error, 1, "0.00"), client))
  {
    if client.Some? && w.alive(client.value) then (SshRun(w, client.value, call.command, call.env), client)
    else
      match CreateSshClient(w, call.host, call.username, call.keyFile, call.password, call.port)
      case Ok(c) => (SshRun(w, c, call.command, call.env), Some(c))
      case Err(e) => (ExecuteResult([], RemoteFailed + e, 1, "0.00"), client)
  }

  /** A live client is used as it is: how connections would be made does not matter. */
  lemma LiveClientIsReused(client: SshClient, w: World, w': World, call: Call)
    requires w.alive(client) && w' == w.(connect := w'.connect, sshAvailable := w'.sshAvailable)
    ensures RemoteStep(Some(client), w, call) == RemoteStep(Some(client), w', call)
    ensures RemoteStep(Some(client), w, call).1 == Some(client)
  {
  }

  /** Without a live client, a failed connection leaves the session's client as it was and
      reports the failure on stderr. */
  lemma FailedConnectKeepsClient(client: Option<SshClient>, w: World, call: Call)
    requires !(client.Some? && w.alive(client.value))
    requires CreateSshClient(w, call.host, call.username, call.keyFile, call.password, call.port).Err?
    ensures RemoteStep(client, w, call).1 == client
    ensures RemoteStep(client, w, call).0.exitCode == 1
    ensures StartsWith(RemoteStep(client, w, call).0.stderr, RemoteFailed)
  {
  }

  // ---------------------------------------------------------------- responses

  /** `response["id"] = request_id` unless the id is null. */
  function WithId(response: Dict<Json>, id: Json): (r: Json)
    requires "id" !in Keys(response)
    ensures r.JObj? && Get(r.fields, "id") == (if id.JNull? then None else Some(id))
    ensures forall k :: k != "id" ==> Get(r.fields, k) == Get(response, k)
  {
    if id.JNull? then JObj(response)
    else
      PutAbsent(response, "id", id);
      forall k ensures Get(Put(response, "id", id), k) == if k == "id" then Some(id) else Get(response, k) {
        PutGet(response, "id", id, k);
      }
      JObj(Put(response, "id", id))
  }

  function ErrorResponse(code: int, message: string): (r: Dict<Json>)
    ensures "id" !in Keys(r) && Get(r, "jsonrpc") == Some(Version)
  {
    [("jsonrpc", Version), ("error", JObj([("code", JInt(code)), ("message", JStr(message))]))]
  }

  function ResultResponse(result: Json): (r: Dict<Json>)
    ensures "id" !in Keys(r) && Get(r, "jsonrpc") == Some(Version) && Get(r, "result") == Some(result)
  {
    [("jsonrpc", Version), ("result", result)]
  }

  function InitializeResult(): Json {
    JObj([
      ("protocolVersion", JStr("2024-11-05")),
      ("capabilities", JObj([("tools", JObj([]))])),
      ("serverInfo", JObj([("name", JStr("shell-mcp-server")), ("version", JStr("1.0.0"))]))])
  }

  function Prop(name: string, kind: string, description: string): (string, Json) {
    (name, JObj([("type", JStr(kind)), ("description", JStr(description))]))
  }

  /** `list(self.tools.values())`: the `execute_command` and `get_tools` tool descriptions the
      server is built with. */
  function ToolCatalog(): Json {
    JArr([
      JObj([
        ("name", JStr("execute_command")),
        ("description", JStr("在本地或远程主机上执行命令")),
        ("inputSchema", JObj([
          ("type", JStr("object")),
          ("properties", JObj([
            Prop("command", "string", "要执行的命令"),
            Prop("host", "string", "远程主机地址（可选，不提供则本地执行）"),
            Prop("username", "string", "SSH用户名（远程执行时必需）"),
            Prop("password", "string", "SSH密码（可选）"),
            Prop("key_file", "string", "SSH私钥文件路径（可选）"),
            Prop("port", "integer", "SSH端口（默认22）"),
            Prop("session", "string", "会话名称（默认'default'）"),
            Prop("env", "object", "环境变量"),
            Prop("cwd", "string", "工作目录（仅本地执行）"),
            Prop("force_execute", "boolean", "强制执行危险命令（跳过安全检查，默认false）")])),
          ("required", JArr([JStr("command")]))]))]),
      JObj([
        ("name", JStr("get_tools")),
        ("description", JStr("获取服务器支持的所有工具列表")),
        ("inputSchema", JObj([("type", JStr("object")), ("properties", JObj([]))]))])])
  }

  /** The result of `tools/list` and `get_tools` for the server's tool list. */
  function ToolsResult(tools: Json): Json { JObj([("tools", tools)]) }

  function PingResult(nowSeconds: int): Json {
    JObj([("status", JStr("pong")), ("timestamp", JInt(nowSeconds))])
  }

  /** What `handle_request` gives back: a response, nothing (an id-less `ping`), or the
      exception that escapes it when the request is not a dict. */
  datatype Reply = Respond(response: Json) | NoReply | Raised(error: string)

  /** The request's `method`, `params` and `id`, with `request.get`'s defaults. */
  function Method(fields: Dict<Json>): Json { GetOr(fields, "method", JNull) }
  function Params(fields: Dict<Json>): Json { GetOr(fields, "params", JObj([])) }
  function Id(fields: Dict<Json>): Json { GetOr(fields, "id", JNull) }

  predicate KnownMethod(m: Json) {
    m in {JStr("initialize"), JStr("tools/list"), JStr("tools/call"), JStr("ping")}
  }

  /** The response `handle_request` builds for every method but `tools/call`; `None` for an
      id-less `ping`. */
  function RouteFixed(fields: Dict<Json>, tools: Json, w: World): (r: Option<Json>)
    requires Method(fields) != JStr("tools/call")
    ensures r.None? <==> Method(fields) == JStr("ping") && Id(fields).JNull?
    ensures r.Some? ==> r.value.JObj? && Get(r.value.fields, "jsonrpc") == Some(Version)
                        && Get(r.value.fields, "id") == (if Id(fields).JNull? then None else Some(Id(fields)))
    ensures Method(fields) == JStr("initialize") ==> r == Some(WithId(ResultResponse(InitializeResult()), Id(fields)))
    ensures Method(fields) == JStr("tools/list") ==> r == Some(WithId(ResultResponse(ToolsResult(tools)), Id(fields)))
    ensures Method(fields) == JStr("ping") && !Id(fields).JNull? ==>
              r == Some(WithId(ResultResponse(PingResult(w.nowSeconds)), Id(fields)))
    ensures !KnownMethod(Method(fields)) ==>
              r == Some(WithId(ErrorResponse(-32601, "Method not found: " + Str(Method(fields), w.render)), Id(fields)))
  {
    var m, id := Method(fields), Id(fields);
    if m == JStr("initialize") then Some(WithId(ResultResponse(InitializeResult()), id))
    else if m == JStr("tools/list") then Some(WithId(ResultResponse(ToolsResult(tools)), id))
    else if m == JStr("ping") then
      if !id.JNull? then Some(WithId(ResultResponse(PingResult(w.nowSeconds)), id)) else None
    else Some(WithId(ErrorResponse(-32601, "Method not found: " + Str(m, w.render)), id))
  }

  /** The reply to a tool call: its response with the id attached, or an internal error
      (-32603) carrying what the call raised. */
  function CallReply(r: Result<Dict<Json>, string>, id: Json): (reply: Reply)
    requires r.Ok? ==> "id" !in Keys(r.value) && Get(r.value, "jsonrpc") == Some(Version)
    ensures reply.Respond? && reply.response.JObj?
    ensures Get(reply.response.fields, "jsonrpc") == Some(Version)
    ensures Get(reply.response.fields, "id") == (if id.JNull? then None else Some(id))
    ensures r.Ok? ==> forall k :: k != "id" ==> Get(reply.response.fields, k) == Get(r.value, k)
    ensures r.Err? ==> reply == Respond(WithId(ErrorResponse(-32603, "Internal error: " + r.error), id))
  {
    match r
    case Ok(response) => Respond(WithId(response, id))
    case Err(e) => Respond(WithId(ErrorResponse(-32603, "Internal error: " + e), id))
  }

  /** The reply to any method but `tools/call`: no reply for an id-less `ping`. */
  function FixedReply(fields: Dict<Json>, tools: Json, w: World): (reply: Reply)
    requires Method(fields) != JStr("tools/call")
    ensures !reply.Raised?
    ensures reply == NoReply <==> Method(fields) == JStr("ping") && Id(fields).JNull?
    ensures reply.Respond? ==> reply.response.JObj? && Get(reply.response.fields, "jsonrpc") == Some(Version)
                               && Get(reply.response.fields, "id") == (if Id(fields).JNull? then None else Some(Id(fields)))
    ensures Method(fields) == JStr("initialize") ==> reply == Respond(WithId(ResultResponse(InitializeResult()), Id(fields)))
    ensures Method(fields) == JStr("tools/list") ==> reply == Respond(WithId(ResultResponse(ToolsResult(tools)), Id(fields)))
    ensures Method(fields) == JStr("ping") && !Id(fields).JNull? ==>
              reply == Respond(WithId(ResultResponse(PingResult(w.nowSeconds)), Id(fields)))
    ensures !KnownMethod(Method(fields)) ==>
              reply == Respond(WithId(ErrorResponse(-32601, "Method not found: " + Str(Method(fields), w.render)), Id(fields)))
  {
    var r := RouteFixed(fields, tools, w);
    if r.Some? then Respond(r.value) else NoReply
  }

  /** What serving a screened call leaves behind: the expired records are evicted before the
      session id is checked; a good id names a session afterwards, added at the end when it
      was not there; a host without a username is refused. `kept` is the table eviction
      leaves. */
  predicate Served(call: Call, w: World, kept: Dict<Session>, after: Dict<Session>, result: ToolResult) {
    var key := SessionKey(call.session, w);
    && (key.Err? ==> result == Text(CommandFailed + key.error, true) && after == kept)
    && (key.Ok? ==> Get(after, key.value).Some?
                    && Keys(after) == if key.value in Keys(kept) then Keys(kept) else Keys(kept) + [key.value])
    && (key.Ok? && Truthy(call.host) && !Truthy(call.username) ==> result == Text(UsernameRequired, true))
  }

  /** What `_execute_command` promises about its result `t`: an undecodable call and a call the
      screening answers leave the table as it was (`before`); any other call is served on the
      table eviction leaves (`kept`), ending with the table `after`. */
  predicate ToolRan(f: Filter, e: Engine, args: Json, w: World,
                     before: Dict<Session>, kept: Dict<Session>, after: Dict<Session>, t: ToolResult) {
    var d := DecodeArgs(args);
    && (d.Err? ==> t == Text(CommandFailed + d.error, true) && after == before)
    && (d.Ok? && Screen(f, e, d.value).Some? ==> t == Screen(f, e, d.value).value && after == before)
    && (d.Ok? && Screen(f, e, d.value).None? ==> Served(d.value, w, kept, after, t))
  }

  function ToolName(fields: Dict<Json>): Json { GetOr(fields, "name", JNull) }
  function Arguments(fields: Dict<Json>): Json { GetOr(fields, "arguments", JObj([])) }

  predicate IsExecute(name: Json) {
    name == JStr("execute_command") || name == JStr("execute")
  }

  /** What `_handle_call_tool` promises about its outcome `r`: `params.get` raises on a
      `params` that is not a dict; `execute_command` and `execute` answer with the tool's result
      as `ToolRan` states it; `get_tools` answers with the catalogue and any other name with
      -32602; only running the tool touches the session table. */
  ghost predicate Called(f: Filter, e: Engine, tools: Json, params: Json, w: World,
                   before: Dict<Session>, kept: Dict<Session>, after: Dict<Session>, r: Result<Dict<Json>, string>) {
    && (!params.JObj? ==> r == Err(NoAttributeText(params, "get")) && after == before)
    && (params.JObj? && IsExecute(ToolName(params.fields)) ==>
          exists t :: r == Ok(ResultResponse(ToolResultJson(t)))
                      && ToolRan(f, e, Arguments(params.fields), w, before, kept, after, t))
    && (params.JObj? && ToolName(params.fields) == JStr("get_tools") ==>
          r == Ok(ResultResponse(ToolsResult(tools))) && after == before)
    && (params.JObj? && !IsExecute(ToolName(params.fields)) && ToolName(params.fields) != JStr("get_tools") ==>
          r == Ok(ErrorResponse(-32602, "Unknown tool: " + Str(ToolName(params.fields), w.render))) && after == before)
  }

  /** The reply to a `tools/call` request is `CallReply` of an outcome of the tool call. */
  ghost predicate CallAnswered(f: Filter, e: Engine, tools: Json, fields: Dict<Json>, w: World,
                               before: Dict<Session>, kept: Dict<Session>, after: Dict<Session>, reply: Reply) {
    exists r: Result<Dict<Json>, string> ::
      && (r.Ok? ==> "id" !in Keys(r.value) && Get(r.value, "jsonrpc") == Some(Version))
      && Called(f, e, tools, Params(fields), w, before, kept, after, r)
      && reply == CallReply(r, Id(fields))
  }

  // ---------------------------------------------------------------- the server

  class Server {
    const filter: Filter
    const engine: Engine
    const manager: SessionManager
    const tools: Json

    predicate Valid()
      reads manager
    {
      manager.Valid()
    }

    /** A server with the filter built from the configured rules and an empty session table. */
    constructor (config: FilterConfig, e: Engine, timeout: int)
      ensures Valid() && Built(filter, config, e) && engine == e
      ensures fresh(manager) && manager.sessions == [] && manager.timeout == timeout
      ensures tools == ToolCatalog()
    {
      var f := NewFilter(config, e);
      filter := f;
      engine := e;
      manager := new SessionManager(timeout);
      tools := ToolCatalog();
    }

    /** `_execute_local_command`: the call's variables are merged into the session's and stay
        there; the command runs with the merged set. */
    method ExecuteLocal(s: Session, w: World, call: Call) returns (r: Result<ExecuteResult, string>)
      modifies s
      ensures var step := LocalStep(old(s.localEnv), w, call);
              && (step.Err? ==> r == Err(step.error) && s.localEnv == old(s.localEnv))
              && (step.Ok? ==> r == Ok(step.value.0) && s.localEnv == step.value.1)
      ensures s.host == old(s.host) && s.username == old(s.username) && s.sshClient == old(s.sshClient)
      ensures s.created == old(s.created) && s.lastUsed == old(s.lastUsed)
    {
      var merged := EnvUpdate(s.localEnv, call.env, w);
      if merged.Err? {
        return Err(merged.error);
      }
      s.localEnv := merged.value;
      r := Ok(LocalRun(w, call.command, merged.value, call.cwd));
    }

    /** `_execute_remote_command`: reuse or replace the session's SSH client, then run. */
    method ExecuteRemote(s: Session, w: World, call: Call) returns (r: ExecuteResult)
      modifies s
      ensures (r, s.sshClient) == RemoteStep(old(s.sshClient), w, call)
      ensures s.host == old(s.host) && s.username == old(s.username) && s.localEnv == old(s.localEnv)
      ensures s.created == old(s.created) && s.lastUsed == old(s.lastUsed)
    {
      var client: SshClient;
      if s.sshClient.Some? && w.alive(s.sshClient.value) {
        client := s.sshClient.value;
      } else {
        var made := CreateSshClient(w, call.host, call.username, call.keyFile, call.password, call.port);
        if made.Err? {
          return ExecuteResult([], RemoteFailed + made.error, 1, "0.00");
        }
        client := made.value;
        s.sshClient := Some(client);
      }
      r := SshRun(w, client, call.command, call.env);
    }

    /** The last three gates of `execute_command` once the session is known: a host without a
        username is refused, then the command runs remotely or locally and its result is
        formatted; an environment that cannot be merged fails the call. */
    method Run(s: Session, w: World, call: Call) returns (result: ToolResult)
      modifies s
      ensures Truthy(call.host) && !Truthy(call.username) ==>
                result == Text(UsernameRequired, true) && s.sshClient == old(s.sshClient)
                && s.localEnv == old(s.localEnv)
      ensures Truthy(call.host) && Truthy(call.username) ==>
                var step := RemoteStep(old(s.sshClient), w, call);
                result == FormatResult(step.0) && s.sshClient == step.1 && s.localEnv == old(s.localEnv)
      ensures !Truthy(call.host) ==>
                var step := LocalStep(old(s.localEnv), w, call);
                && (step.Err? ==> result == Text(CommandFailed + step.error, true) && s.localEnv == old(s.localEnv))
                && (step.Ok? ==> result == FormatResult(step.value.0) && s.localEnv == step.value.1)
                && s.sshClient == old(s.sshClient)
      ensures s.host == old(s.host) && s.username == old(s.username)
      ensures s.created == old(s.created) && s.lastUsed == old(s.lastUsed)
    {
      if Truthy(call.host) {
        if !Truthy(call.username) {
          return Text(UsernameRequired, true);
        }
        var r := ExecuteRemote(s, w, call);
        result := FormatResult(r);
      } else {
        var r := ExecuteLocal(s, w, call);
        if r.Err? {
          return Text(CommandFailed + r.error, true);
        }
        result := FormatResult(r.value);
      }
    }

    /** `_execute_command`: the gates in their fixed order. A call that cannot be decoded, or
        that the screening answers, never reaches the session table; a call that gets past
        them looks up (or creates) its session before the host and username are checked. */
    method ExecuteCommand(w: World, args: Json) returns (result: ToolResult)
      requires Valid()
      modifies manager, Records(manager.sessions)
      ensures Valid() && manager.timeout == old(manager.timeout)
      ensures ToolRan(filter, engine, args, w, old(manager.sessions), old(Evict(manager.sessions, w.now, manager.timeout)),
                       manager.sessions, result)
    {
      var decoded := DecodeArgs(args);
      if decoded.Err? {
        return Text(CommandFailed + decoded.error, true);
      }
      var call := decoded.value;
      var early := Screen(filter, engine, call);
      if early.Some? {
        return early.value;
      }
      result := Serve(w, call);
    }

    /** The part of `_execute_command` after the screening: evict, pick the session, run. */
    method Serve(w: World, call: Call) returns (result: ToolResult)
      requires Valid()
      modifies manager, Records(manager.sessions)
      ensures Valid() && manager.timeout == old(manager.timeout)
      ensures Served(call, w, old(Evict(manager.sessions, w.now, manager.timeout)), manager.sessions, result)
    {
      ghost var snap := manager.sessions;
      EvictMembers(snap, w.now, manager.timeout);
      var key := SessionKey(call.session, w);
      if key.Err? {
        var _, _ := manager.EvictExpired(w.now);
        return Text(CommandFailed + key.error, true);
      }
      assert RecordsUnder(manager.sessions, key.value) <= Records(manager.sessions);
      ghost var kept := Evict(manager.sessions, w.now, manager.timeout);
      var s, _, _ := manager.GetSession(key.value, call.host, call.username, w.now);
      KeysAppend(kept, key.value, s);
      assert s in old(Records(manager.sessions)) || fresh(s) by {
        if !fresh(s) {
          assert (key.value, s) in manager.sessions;
        }
      }
      result := Run(s, w, call);
    }

    /** `_handle_call_tool`: the tool is chosen by name; a `params` that is not a dict makes
        `params.get` raise. */
    method CallTool(w: World, params: Json) returns (r: Result<Dict<Json>, string>)
      requires Valid()
      modifies manager, Records(manager.sessions)
      ensures Valid()
      ensures r.Ok? ==> "id" !in Keys(r.value) && Get(r.value, "jsonrpc") == Some(Version)
      ensures Called(filter, engine, tools, params, w, old(manager.sessions), old(Evict(manager.sessions, w.now, manager.timeout)),
                     manager.sessions, r)
      ensures params.JObj? && IsExecute(ToolName(params.fields)) ==> r.Ok? && Get(r.value, "result").Some?
    {
      if !params.JObj? {
        return Err(NoAttributeText(params, "get"));
      }
      var name := ToolName(params.fields);
      if IsExecute(name) {
        ghost var before, kept := manager.sessions, Evict(manager.sessions, w.now, manager.timeout);
        var result := ExecuteCommand(w, Arguments(params.fields));
        r := Ok(ResultResponse(ToolResultJson(result)));
        assert ToolRan(filter, engine, Arguments(params.fields), w, before, kept, manager.sessions, result);
      } else if name == JStr("get_tools") {
        r := Ok(ResultResponse(ToolsResult(tools)));
      } else {
        r := Ok(ErrorResponse(-32602, "Unknown tool: " + Str(name, w.render)));
      }
    }

    /** `handle_request`: route by method and attach the id unless it is null; an error raised
        by a tool call becomes an internal error (-32603) response. Only an id-less `ping` gets
        no response; any request that is not a dict raises. */
    method HandleRequest(w: World, request: Json) returns (reply: Reply)
      requires Valid()
      modifies manager, Records(manager.sessions)
      ensures Valid()
      ensures reply.Raised? <==> !request.JObj?
      ensures !request.JObj? ==> reply.error == NoAttributeText(request, "get")
      ensures reply == NoReply <==> request.JObj? && Method(request.fields) == JStr("ping") && Id(request.fields).JNull?
      ensures reply.Respond? ==>
                && reply.response.JObj?
                && Get(reply.response.fields, "jsonrpc") == Some(Version)
                && Get(reply.response.fields, "id") ==
                     (if Id(request.fields).JNull? then None else Some(Id(request.fields)))
      ensures request.JObj? && !KnownMethod(Method(request.fields)) ==>
                reply == Respond(WithId(ErrorResponse(-32601, "Method not found: " + Str(Method(request.fields), w.render)),
                                        Id(request.fields)))
      ensures !(request.JObj? && Method(request.fields) == JStr("tools/call")) ==> manager.sessions == old(manager.sessions)
      ensures request.JObj? && Method(request.fields) != JStr("tools/call") ==> reply == FixedReply(request.fields, tools, w)
      ensures request.JObj? && Method(request.fields) == JStr("tools/call") && !Params(request.fields).JObj? ==>
                reply == Respond(WithId(ErrorResponse(-32603, "Internal error: " + NoAttributeText(Params(request.fields), "get")),
                                        Id(request.fields)))
      ensures request.JObj? && Method(request.fields) == JStr("tools/call") ==>
                CallAnswered(filter, engine, tools, request.fields, w, old(manager.sessions),
                             old(Evict(manager.sessions, w.now, manager.timeout)), manager.sessions, reply)
    {
      if !request.JObj? {
        return Raised(NoAttributeText(request, "get"));
      }
      var fields := request.fields;
      if Method(fields) == JStr("tools/call") {
        var r := CallTool(w, Params(fields));
        reply := CallReply(r, Id(fields));
      } else {
        reply := FixedReply(fields, tools, w);
      }
    }
  }
}
