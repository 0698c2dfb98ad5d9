/** The `appwrite` command-line builders of appwrite_lab/playwright/common.py and
    `execute_same_shell`, which runs several of them in one `bash -c` line. Running the
    command is not modelled: the operation yields the argument vector it would run. */
module AppwriteCli {
  import opened Wrappers
  import opened PyStr
  import opened EnvFormat

  /** A command and the variables to set for it (None or empty: none). */
  datatype CommandExecutor = CommandExecutor(cmd: seq<string>, envs: Option<EnvMap>)

  /** `AppwriteCLI.login`. */
  function Login(url: string, email: string, password: string): (e: CommandExecutor)
    ensures e.envs == None
    ensures |e.cmd| == 8 && e.cmd[..2] == ["appwrite", "login"]
    ensures e.cmd[2] == "--endpoint" && e.cmd[3] == url
    ensures e.cmd[4] == "--email" && e.cmd[5] == email
    ensures e.cmd[6] == "--password" && e.cmd[7] == password
  {
    CommandExecutor(["appwrite", "login", "--endpoint", url, "--email", email, "--password", password], None)
  }

  /** `AppwriteCLI.get_project`. */
  function GetProject(projectId: string): (e: CommandExecutor)
    ensures e.envs == None
    ensures e.cmd == ["appwrite", "projects", "get", "--project-id", projectId]
  {
    CommandExecutor(["appwrite", "projects", "get", "--project-id", projectId], None)
  }

  /** Whether the executor has variables to set: a non-empty dict. */
  predicate HasEnv(e: CommandExecutor)
  {
    e.envs.Some? && e.envs.value != []
  }

  /** The shell line of one executor: its words joined by spaces, preceded by its
      variables rendered as `KEY=VALUE` words when it has any. How the lines are joined
      is proved by `CombinedLineSnoc` and `ShellLineWithEnv`. */
  function ShellLine(e: CommandExecutor): (line: string)
    ensures !HasEnv(e) ==> line == Join(" ", e.cmd)
    ensures HasEnv(e) && e.cmd != [] ==> line == EnvDictToStr(e.envs.value) + " " + Join(" ", e.cmd)
    ensures HasEnv(e) && e.cmd == [] ==> line == EnvDictToStr(e.envs.value)
  {
    if HasEnv(e) then
      if e.cmd != [] then JoinCons(" ", EnvDictToStr(e.envs.value), e.cmd); Join(" ", [EnvDictToStr(e.envs.value)] + e.cmd)
      else assert [EnvDictToStr(e.envs.value)] + e.cmd == [EnvDictToStr(e.envs.value)]; Join(" ", [EnvDictToStr(e.envs.value)] + e.cmd)
    else Join(" ", e.cmd)
  }

  /** The line `bash -c` runs: one shell line per executor, in order, joined by `&&`. */
  function CombinedLine(execs: seq<CommandExecutor>): string
  {
    Join(" && ", seq(|execs|, i requires 0 <= i < |execs| => ShellLine(execs[i])))
  }

  /** `execute_same_shell`: builds the shell line of each executor in a loop (on a copy of
      its words, so the executor is left as it was) and returns what it runs. */
  method ExecuteSameShell(execs: seq<CommandExecutor>) returns (argv: seq<string>)
    ensures |argv| == 3 && argv[0] == "bash" && argv[1] == "-c"
    ensures argv[2] == CombinedLine(execs)
  {
    var allCmds: seq<string> := [];
    for i := 0 to |execs|
      invariant |allCmds| == i
      invariant forall j :: 0 <= j < i ==> allCmds[j] == ShellLine(execs[j])
    {
      var exc := execs[i];
      var cmds := exc.cmd;
      if exc.envs.Some? && exc.envs.value != [] {
        var envStr := EnvDictToStr(exc.envs.value);
        cmds := [envStr] + cmds;
      }
      allCmds := allCmds + [Join(" ", cmds)];
    }
    assert allCmds == seq(|execs|, i requires 0 <= i < |execs| => ShellLine(execs[i]));
    var combined := Join(" && ", allCmds);
    argv := ["bash", "-c", combined];
  }

  /** One more executor adds ` && ` and its line at the end. */
  lemma CombinedLineSnoc(execs: seq<CommandExecutor>, e: CommandExecutor)
    requires execs != []
    ensures CombinedLine(execs + [e]) == CombinedLine(execs) + " && " + ShellLine(e)
  {
    var lines := seq(|execs|, i requires 0 <= i < |execs| => ShellLine(execs[i]));
    assert seq(|execs + [e]|, i requires 0 <= i < |execs + [e]| => ShellLine((execs + [e])[i])) == lines + [ShellLine(e)];
    JoinSnoc(" && ", lines, ShellLine(e));
  }

  /** A single executor's line runs alone, with no `&&`. */
  lemma CombinedLineSingle(e: CommandExecutor)
    ensures CombinedLine([e]) == ShellLine(e)
  {
    assert seq(1, i requires 0 <= i < 1 => ShellLine([e][i])) == [ShellLine(e)];
  }

  /** Variables set on an executor come first on its line, as `KEY=VALUE` words. */
  lemma ShellLineWithEnv(cmd: seq<string>, envs: EnvMap)
    requires cmd != [] && envs != []
    ensures ShellLine(CommandExecutor(cmd, Some(envs))) == EnvDictToStr(envs) + " " + Join(" ", cmd)
    ensures ShellLine(CommandExecutor(cmd, Some([]))) == ShellLine(CommandExecutor(cmd, None))
  {
  }
}
