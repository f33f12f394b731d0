/** `LocalExecutor` and `SSHExecutor` (shell_mcp_server.py:271-373): what a command run
    yields, with the operating system, the SSH library and the clock as the `World`. */
module Executors {
  import opened Wrappers
  import opened Text
  import opened Dicts
  import opened JsonValues
  import opened Sessions

  /** `ExecuteResult`; the run time is kept as the text `f"{t:.2f}"` prints for it. */
  datatype ExecuteResult = ExecuteResult(stdout: string, stderr: string, exitCode: int, elapsed: string)

  /** The process a local run asks for: the command as given, its environment and directory. */
  datatype SpawnRequest = SpawnRequest(command: Json, env: Dict<Json>, cwd: Json)

  /** What running a process or a remote command gives back: the decoded output and the
      exit status (`None` when the process has no return code), or the error it raised. */
  datatype RunOutcome = Ran(stdout: string, stderr: string, returnCode: Option<int>) | RunFailed(error: string)

  /** What `exec_command` on an SSH client gives back: the decoded output and
      `recv_exit_status()`, or the error it raised. */
  datatype ExecOutcome = Executed(stdout: string, stderr: string, exitStatus: int) | ExecFailed(error: string)

  /** How `create_ssh_client` authenticates. */
  datatype Credential = KeyFile(path: string) | Password(password: Json) | NoCredential

  datatype ConnectRequest = ConnectRequest(host: Json, port: Json, username: Json, credential: Credential)

  datatype ConnectOutcome = Connected(client: SshClient) | ConnectFailed(error: string)

  /** Everything outside the program: the process environment, process and SSH calls, the
      file system, the clock and Python's `str()` of lists and dicts. */
  datatype World = World(
    now: real,
    nowSeconds: int,
    elapsed: string,
    osEnv: Dict<Json>,
    spawn: SpawnRequest -> RunOutcome,
    sshAvailable: bool,
    expandUser: string -> string,
    pathExists: string -> bool,
    connect: ConnectRequest -> ConnectOutcome,
    alive: SshClient -> bool,
    exec: (SshClient, string) -> ExecOutcome,
    render: Json -> string,
    updateError: Json -> string)

  const LocalFailed := "本地命令执行失败: "
  const SshFailed := "SSH命令执行失败: "
  const SshUnavailable := "SSH功能不可用，请安装paramiko: pip install paramiko"
  const SshConnectFailed := "SSH连接失败: "
  const RemoteFailed := "远程命令执行失败: "
  const DefaultKeys := ["~/.ssh/id_rsa", "~/.ssh/id_ed25519", "~/.ssh/id_ecdsa"]

  // ---------------------------------------------------------------- local runs

  /** `process.returncode or 0`. */
  function LocalExitCode(rc: Option<int>): (code: int)
    ensures rc.Some? && rc.value != 0 ==> code == rc.value
    ensures rc.None? || rc.value == 0 ==> code == 0
  {
    match rc
    case None => 0
    case Some(n) => if n != 0 then n else 0
  }

  /** `LocalExecutor.execute_command`: the process environment with the given variables laid
      over it (`update` with nothing leaves it as it is); a process that cannot be started
      becomes exit code 1 with the error on stderr. */
  function LocalRun(w: World, command: Json, env: Dict<Json>, cwd: Json): (r: ExecuteResult)
    ensures var run := w.spawn(SpawnRequest(command, Update(w.osEnv, env), cwd));
            && (run.RunFailed? ==> r == ExecuteResult([], LocalFailed + run.error, 1, w.elapsed))
            && (run.Ran? ==> r.stdout == run.stdout && r.stderr == run.stderr && r.elapsed == w.elapsed
                             && (r.exitCode == 0 <==> run.returnCode in {None, Some(0)})
                             && (run.returnCode.Some? && run.returnCode.value != 0 ==> r.exitCode == run.returnCode.value))
  {
    match w.spawn(SpawnRequest(command, Update(w.osEnv, env), cwd))
    case Ran(out, err, rc) => ExecuteResult(out, err, LocalExitCode(rc), w.elapsed)
    case RunFailed(e) => ExecuteResult([], LocalFailed + e, 1, w.elapsed)
  }

  // ---------------------------------------------------------------- SSH

  /** `export k='v'` for one variable. */
  function ExportLine(k: string, v: Json, render: Json -> string): string {
    "export " + k + "='" + Str(v, render) + "'"
  }

  function ExportLines(env: Dict<Json>, render: Json -> string): seq<string> {
    seq(|env|, i requires 0 <= i < |env| => ExportLine(env[i].0, env[i].1, render))
  }

  /** Each variable as its own `export k='v'; ` statement, one after another. */
  function ExportStatements(env: Dict<Json>, render: Json -> string): string
    decreases |env|
  {
    if env == [] then [] else ExportLine(env[0].0, env[0].1, render) + "; " + ExportStatements(env[1..], render)
  }

  /** The prefix `SSHExecutor.execute_command` puts before the command: nothing for a falsy
      `env`, the joined export statements ending in `"; "` for a dict, and the AttributeError
      of `env.items()` for anything else. */
  function EnvPrefix(env: Json, render: Json -> string): (r: Result<string, string>)
    ensures !Truthy(env) ==> r == Ok([])
    ensures env.JObj? ==> r == Ok(ExportStatements(env.fields, render))
    ensures Truthy(env) && !env.JObj? ==> r.Err?
  {
    if !Truthy(env) then Ok([])
    else if env.JObj? then
      var lines := ExportLines(env.fields, render);
      ExportJoin(env.fields, render);
      Ok(if lines != [] then Join(lines, "; ") + "; " else [])
    else Err(NoAttributeText(env, "items"))
  }

  /** Joining the export lines with `"; "` and adding a final `"; "` is writing each line
      followed by `"; "`. */
  lemma {:induction false} ExportJoin(env: Dict<Json>, render: Json -> string)
    ensures (if ExportLines(env, render) != [] then Join(ExportLines(env, render), "; ") + "; " else [])
            == ExportStatements(env, render)
    decreases |env|
  {
    if |env| > 1 {
      ExportJoin(env[1..], render);
      assert ExportLines(env, render)[1..] == ExportLines(env[1..], render);
    } else if |env| == 1 {
      assert env[1..] == [];
    }
  }

  /** The result `SSHExecutor.execute_command` builds from what the client gave back. */
  function RemoteResult(run: ExecOutcome, w: World): ExecuteResult {
    match run
    case Executed(out, err, status) => ExecuteResult(out, err, status, w.elapsed)
    case ExecFailed(e) => ExecuteResult([], SshFailed + e, 1, w.elapsed)
  }

  /** `SSHExecutor.execute_command`: without variables the command's text is sent as it is;
      with a dict each variable is exported before it; any other truthy `env` fails before
      anything is sent, as exit code 1 with the error on stderr. */
  function SshRun(w: World, client: SshClient, command: Json, env: Json): (r: ExecuteResult)
    ensures !Truthy(env) ==> r == RemoteResult(w.exec(client, Str(command, w.render)), w)
    ensures env.JObj? ==> r == RemoteResult(w.exec(client, ExportStatements(env.fields, w.render) + Str(command, w.render)), w)
    ensures Truthy(env) && !env.JObj? ==>
              r.stdout == [] && r.exitCode == 1 && StartsWith(r.stderr, SshFailed) && r.elapsed == w.elapsed
  {
    match EnvPrefix(env, w.render)
    case Err(e) => ExecuteResult([], SshFailed + e, 1, w.elapsed)
    case Ok(prefix) =>
      assert !Truthy(env) ==> prefix + Str(command, w.render) == Str(command, w.render);
      RemoteResult(w.exec(client, prefix + Str(command, w.render)), w)
  }

  /** The first of `paths` (each expanded) that exists. */
  function FirstExisting(paths: seq<string>, w: World): (r: Option<string>)
    ensures r.Some? ==> exists i :: 0 <= i < |paths| && r.value == w.expandUser(paths[i])
                                    && w.pathExists(r.value)
                                    && forall j :: 0 <= j < i ==> !w.pathExists(w.expandUser(paths[j]))
    ensures r.None? ==> forall i :: 0 <= i < |paths| ==> !w.pathExists(w.expandUser(paths[i]))
  {
    if paths == [] then None
    else if w.pathExists(w.expandUser(paths[0])) then Some(w.expandUser(paths[0]))
    else
      var r := FirstExisting(paths[1..], w);
      if r.Some? then
        var i :| 0 <= i < |paths[1..]| && r.value == w.expandUser(paths[1..][i]) && w.pathExists(r.value)
                 && forall j :: 0 <= j < i ==> !w.pathExists(w.expandUser(paths[1..][j]));
        assert forall j :: 0 <= j < i + 1 ==> !w.pathExists(w.expandUser(paths[j])) by {
          forall j | 0 <= j < i + 1 ensures !w.pathExists(w.expandUser(paths[j])) {
            if j > 0 { assert paths[j] == paths[1..][j - 1]; }
          }
        }
        assert paths[i + 1] == paths[1..][i];
        r
      else
        assert forall i :: 1 <= i < |paths| ==> paths[i] == paths[1..][i - 1];
        r
  }

  /** The default-key loop of `create_ssh_client`: stop at the first key file that exists. */
  method FindDefaultKey(w: World) returns (found: Option<string>)
    ensures found == FirstExisting(DefaultKeys, w)
  {
    found := None;
    var i := 0;
    while i < |DefaultKeys| && found.None?
      invariant 0 <= i <= |DefaultKeys|
      invariant found.None? ==> FirstExisting(DefaultKeys, w) == FirstExisting(DefaultKeys[i..], w)
      invariant found.Some? ==> found == FirstExisting(DefaultKeys, w)
    {
      assert DefaultKeys[i..][1..] == DefaultKeys[i + 1..];
      var path := w.expandUser(DefaultKeys[i]);
      if w.pathExists(path) {
        found := Some(path);
      }
      i := i + 1;
    }
  }

  /** The credential `create_ssh_client` connects with: a key file given and existing (after
      `~` expansion), else a truthy password, else the first default key that exists.
      A truthy key file that is not a string makes `expanduser` raise. */
  function ChooseCredential(keyFile: Json, password: Json, w: World): (r: Result<Credential, string>)
    ensures Truthy(keyFile) && !keyFile.JStr? <==> r.Err?
    ensures (Truthy(keyFile) && keyFile.JStr? && w.pathExists(w.expandUser(keyFile.s)) && w.expandUser(keyFile.s) != [])
            ==> r == Ok(KeyFile(w.expandUser(keyFile.s)))
    ensures r.Ok? && r.value.Password? ==> Truthy(password) && r.value.password == password
    ensures (r.Ok? && r.value.KeyFile? && !(Truthy(keyFile) && w.pathExists(w.expandUser(keyFile.s)) && w.expandUser(keyFile.s) != []))
            ==> !Truthy(password) && Some(r.value.path) == FirstExisting(DefaultKeys, w)
    ensures r == Ok(NoCredential) <==> r.Ok? && !Truthy(password) && FirstExisting(DefaultKeys, w).None?
                                        && !(Truthy(keyFile) && w.pathExists(w.expandUser(keyFile.s)) && w.expandUser(keyFile.s) != [])
  {
    if Truthy(keyFile) && !keyFile.JStr? then
      Err("expected str, bytes or os.PathLike object, not " + TypeName(keyFile))
    else
      var path := if Truthy(keyFile) then w.expandUser(keyFile.s) else [];
      if path != [] && w.pathExists(path) then Ok(KeyFile(path))
      else if Truthy(password) then Ok(Password(password))
      else
        match FirstExisting(DefaultKeys, w)
        case Some(p) => Ok(KeyFile(p))
        case None => Ok(NoCredential)
  }

  /** `create_ssh_client`: the library must be present, then the connection is made with the
      chosen credential; any failure on the way is reported as a connection failure. */
  function CreateSshClient(w: World, host: Json, username: Json, keyFile: Json, password: Json, port: Json): (r: Result<SshClient, string>)
    ensures !w.sshAvailable ==> r == Err(SshUnavailable)
    ensures w.sshAvailable && ChooseCredential(keyFile, password, w).Err? ==>
              r == Err(SshConnectFailed + ChooseCredential(keyFile, password, w).error)
    ensures w.sshAvailable && ChooseCredential(keyFile, password, w).Ok? ==>
              var outcome := w.connect(ConnectRequest(host, port, username, ChooseCredential(keyFile, password, w).value));
              (r.Ok? <==> outcome.Connected?) && (r.Ok? ==> r.value == outcome.client)
              && (r.Err? ==> r.error == SshConnectFailed + outcome.error)
  {
    if !w.sshAvailable then Err(SshUnavailable)
    else
      match ChooseCredential(keyFile, password, w)
      case Err(e) => Err(SshConnectFailed + e)
      case Ok(cred) =>
        match w.connect(ConnectRequest(host, port, username, cred))
        case Connected(c) => Ok(c)
        case ConnectFailed(e) => Err(SshConnectFailed + e)
  }
}
