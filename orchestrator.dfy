/** `ServiceOrchestrator` of appwrite_lab/_orchestrator.py: deploying a lab with the
    container engine, running the browser automation that creates its first API key,
    recording it in the state store, and tearing it down again.

    The container engine is modelled by the containers each compose project has
    running (`world`) and by the commands issued to it (`issued`); how a command ends
    is a parameter of the operation that issues it. */
module Orchestrator {
  import opened Wrappers
  import opened PyStr
  import opened EnvFormat
  import opened StateStore
  import opened LabModel
  import opened OrchestratorText

  /** A container as `ps --format json` lists it: its name and its `Ports` entry, None
      when the record has no such key. */
  datatype Container = Container(names: string, ports: Option<string>)

  /** An argument vector given to the container engine, with the variables added to
      the environment it runs in. */
  datatype Command = Command(argv: seq<string>, env: EnvMap)

  /** How a compose command ends: exit status 0, or a non-zero status with its stderr. */
  datatype Exit = Success | Failure(stderr: string)

  /** How the automation container ends: exit status 0, with the content of the
      `result.txt` it left behind if any, or a non-zero status with its stderr. */
  datatype AutomationRun = Completed(resultFile: Option<string>) | Crashed(stderr: string)

  /** The `data` of a Response. */
  datatype Data = NoData | Text(text: string) | LabData(lab: Lab)

  datatype Response = Response(message: string, data: Data, error: bool)

  /** Exceptions that escape an operation instead of becoming an error Response. */
  datatype Exception =
    | PortsKeyError          // the traefik container has no `Ports` entry (KeyError)
    | PortNotFound           // `extract_port_from_pod_info` raises OrchestratorError
    | TooFewPorts            // AssertionError: fewer than two comma-separated port entries
    | MissingDefaultProject  // the lab has no "default" project (KeyError / AttributeError)
    | LabsNotADictError      // the stored "labs" value is not a dict (AttributeError)
    | StateWriteError        // the state file cannot be rewritten

  datatype Outcome = Returned(response: Response) | Raised(exception: Exception)

  /** The `appwrite_config` entry of `meta`: the settings a lab is built from. */
  datatype LabConfig = LabConfig(
    projectId: Option<string>,
    projectName: Option<string>,
    adminEmail: Option<string>,
    adminPassword: Option<string>)

  // ---------------------------------------------------------------------------
  // Messages
  // ---------------------------------------------------------------------------

  function AlreadyDeployedMsg(name: string): string { "Lab '" + name + "' already deployed." }
  function TemplateNotFoundMsg(version: string): string { "Template " + version + " not found." }
  function JustDeployedMsg(name: string): string { "Lab '" + name + "' deployed with --just-deploy flag." }
  function ApiKeyFailedMsg(name: string): string
  {
    "Lab '" + name + "' deployed, but failed to create API key. Spinning down lab."
  }
  function DeployedMsg(name: string): string { "Lab '" + name + "' deployed." }
  function ScriptNotFoundMsg(automation: string): string
  {
    "Function " + automation + " not found. This should not happen."
  }
  function AutomationFailedMsg(automation: string): string
  {
    "Failed to deploy playwright automation " + automation + "."
  }
  function AutomationDoneMsg(automation: string): string
  {
    "Playwright automation " + automation + " deployed successfully."
  }
  function NothingToStopMsg(name: string): string { "Nothing to stop by name of '" + name + "'." }

  /** The message keeps the indentation of the source line that continues it: the
      backslash at the end of the first line joins the two lines of the f-string. */
  function TeardownFailedMsg(name: string): string
  {
    "Failed to teardown lab " + name + ". " + "                        "
    + "'Please run 'docker-compose -p " + name + " down -v' manually."
  }
  function StoppedMsg(name: string): string { "Lab '" + name + "' stopped." }

  const TraefikName: string := "appwrite-traefik"
  const CreateUserAndApiKey: string := "create_user_and_api_key"
  const ContainerWorkDir: string := "/work/automations"

  /** Python's `f"{value}"` of an optional string. */
  function Show(o: Option<string>): string
  {
    if o.Some? then o.value else "None"
  }

  /** Python's `a or b` on optional strings: `b` when `a` is None or empty. */
  function PyOr(a: Option<string>, b: Option<string>): (r: Option<string>)
    ensures r == a || r == b
    ensures a.Some? && a.value != "" ==> r == a
    ensures a.None? || a.value == "" ==> r == b
  {
    if a.Some? && a.value != "" then a else b
  }

  // ---------------------------------------------------------------------------
  // Deployment steps as functions of their inputs
  // ---------------------------------------------------------------------------

  /** The environment of `compose up`: the default variables, with `_APP_PORT` set to the
      port only when the port is not 80. */
  function AppEnv(defaults: EnvMap, port: int): (e: EnvMap)
    requires DistinctKeys(defaults)
    ensures DistinctKeys(e)
    ensures Lookup(e, "_APP_PORT") == if port != 80 then Some(IntToString(port)) else Lookup(defaults, "_APP_PORT")
    ensures forall k :: k != "_APP_PORT" ==> Lookup(e, k) == Lookup(defaults, k)
    ensures port == 80 ==> e == defaults
  {
    if port != 80 then Update(defaults, "_APP_PORT", IntToString(port)) else defaults
  }

  /** The index of the container `get_running_pods_by_project` keeps under `name`: the dict
      it builds keys containers by name, so the last one listed wins. */
  function LastNamed(pods: seq<Container>, name: string): (r: Option<nat>)
    ensures r.Some? ==> r.value < |pods| && pods[r.value].names == name
    ensures r.Some? ==> forall j :: r.value < j < |pods| ==> pods[j].names != name
    ensures r.None? ==> forall j :: 0 <= j < |pods| ==> pods[j].names != name
  {
    if pods == [] then None
    else if pods[|pods| - 1].names == name then Some(|pods| - 1)
    else LastNamed(pods[..|pods| - 1], name)
  }

  /** The lab URL: empty when the project runs no traefik container, else
      `http://localhost:<port>` for the port its `Ports` entry maps to 80/tcp. A missing
      `Ports` entry, a `Ports` entry without such a mapping, and one with fewer than two
      comma-separated entries raise, in that order. */
  function DiscoverUrl(pods: seq<Container>): (r: Result<string, Exception>)
    ensures r == Ok("") <==> LastNamed(pods, TraefikName).None?
    ensures r.Ok? && r.value != "" ==> exists port: nat :: r.value == LocalUrl(port)
    ensures LastNamed(pods, TraefikName).Some? ==>
      var ports := pods[LastNamed(pods, TraefikName).value].ports;
      && (r == Err(PortsKeyError) <==> ports.None?)
      && (r == Err(PortNotFound) <==> ports.Some? && ExtractPort(ports).Err?)
      && (r == Err(TooFewPorts) <==> ports.Some? && ExtractPort(ports).Ok? && |Split(ports.value, ',')| <= 1)
      && (r.Ok? <==> ports.Some? && ExtractPort(ports).Ok? && |Split(ports.value, ',')| > 1)
      && (r.Ok? ==> r.value == LocalUrl(ExtractPort(ports).value))
  {
    match LastNamed(pods, TraefikName)
    case None => Ok("")
    case Some(i) =>
      var ports := pods[i].ports;
      if ports.None? then Err(PortsKeyError)
      else match ExtractPort(ports)
        case Err(_) => Err(PortNotFound)
        case Ok(port) =>
          if |Split(ports.value, ',')| <= 1 then Err(TooFewPorts)
          else Ok(LocalUrl(port))
  }

  /** The container listed at `i` is the one kept under `name` when no later container has
      that name. */
  lemma {:induction false} LastNamedAt(pods: seq<Container>, name: string, i: nat)
    requires i < |pods| && pods[i].names == name
    requires forall j :: i < j < |pods| ==> pods[j].names != name
    ensures LastNamed(pods, name) == Some(i)
  {
    if i < |pods| - 1 {
      LastNamedAt(pods[..|pods| - 1], name, i);
    }
  }

  /** A traefik container publishing `<host>:<port>->80/tcp` followed by more entries
      gives the URL of that port, wherever it is listed, provided no later container is
      also named traefik. */
  lemma DiscoverUrlOfMapping(pods: seq<Container>, i: nat, host: string, port: nat, rest: string)
    requires ':' !in host && ',' in rest
    requires i < |pods| && pods[i].names == TraefikName
    requires forall j :: i < j < |pods| ==> pods[j].names != TraefikName
    requires pods[i].ports == Some(host + ":" + NatToString(port) + PortSuffix + rest)
    ensures DiscoverUrl(pods) == Ok(LocalUrl(port))
  {
    var s := host + ":" + NatToString(port) + PortSuffix + rest;
    LastNamedAt(pods, TraefikName, i);
    ExtractPortOfMapping(host, port, rest);
    SplitAtSep(s, ',');
  }

  /** A traefik container publishing one mapping only makes the deployment raise, wherever
      it is listed. */
  lemma DiscoverUrlSingleMapping(pods: seq<Container>, i: nat, host: string, port: nat)
    requires ':' !in host && ',' !in host
    requires i < |pods| && pods[i].names == TraefikName
    requires forall j :: i < j < |pods| ==> pods[j].names != TraefikName
    requires pods[i].ports == Some(host + ":" + NatToString(port) + PortSuffix)
    ensures DiscoverUrl(pods) == Err(TooFewPorts)
  {
    var s := host + ":" + NatToString(port) + PortSuffix;
    LastNamedAt(pods, TraefikName, i);
    ExtractPortOfMapping(host, port, "");
    assert s + "" == s;
    MappingHasNoComma(host, port);
    SplitNoSep(s, ',');
  }

  /** One port mapping holds no comma when its host part holds none. */
  lemma MappingHasNoComma(host: string, port: nat)
    requires ',' !in host
    ensures ',' !in host + ":" + NatToString(port) + PortSuffix
  {
    var digits := NatToString(port);
    var s := host + ":" + digits + PortSuffix;
    forall k | 0 <= k < |s| ensures s[k] != ',' {
      if k < |host| {
        assert s[k] == host[k];
      } else if |host| < k < |host| + 1 + |digits| {
        assert s[k] == digits[k - |host| - 1];
        assert IsDigit(digits[k - |host| - 1]);
      } else if k >= |host| + 1 + |digits| {
        assert s[k] == PortSuffix[k - |host| - 1 - |digits|];
      }
    }
  }

  /** The lab as `Lab(name=..., version=..., url=..., **appwrite_config)` builds it, with a
      "default" project holding the configured id and name and no API key. */
  function InitialLab(name: string, version: string, url: string, config: LabConfig): (l: Lab)
    ensures l.projects.Keys == {"default"}
    ensures l.projects["default"] == Project(config.projectId, config.projectName, None)
  {
    Lab(name, version, url,
        if config.adminEmail.Some? then config.adminEmail.value else "",
        if config.adminPassword.Some? then config.adminPassword.value else "",
        map["default" := Project(config.projectId, config.projectName, None)])
  }

  /** The environment of the automation container: the lab's connection settings, then the
      model's variables, a later entry replacing an earlier one with the same key. */
  function AutomationEnv(lab: Lab, project: Project, model: EnvMap): (e: EnvMap)
    requires DistinctKeys(model)
    ensures DistinctKeys(e)
    ensures |e| >= 7 && Keys(e)[..7] == Keys(BaseEnv(lab, project))
    ensures forall k ::
      Lookup(e, k) == if k in Keys(model) then Lookup(model, k) else Lookup(BaseEnv(lab, project), k)
  {
    var base := BaseEnv(lab, project);
    MergeKeysPrefix(base, model);
    forall k ensures Lookup(Merge(base, model), k) ==
      if k in Keys(model) then Lookup(model, k) else Lookup(base, k)
    {
      MergeLookup(base, model, k);
    }
    Merge(base, model)
  }

  /** The seven variables every automation receives; a None renders as "None". */
  function BaseEnv(lab: Lab, project: Project): (e: EnvMap)
    ensures DistinctKeys(e) && |e| == 7
  {
    [("APPWRITE_URL", lab.url),
     ("APPWRITE_PROJECT_ID", Show(project.projectId)),
     ("APPWRITE_ADMIN_EMAIL", lab.adminEmail),
     ("APPWRITE_ADMIN_PASSWORD", lab.adminPassword),
     ("APPWRITE_API_KEY", Show(project.apiKey)),
     ("APPWRITE_PROJECT_NAME", Show(project.projectName)),
     ("HOME", ContainerWorkDir)]
  }

  /** `args` holds one `-e`, `KEY=VALUE` pair per variable of `env`, in order. */
  predicate EnvArgsOf(env: EnvMap, args: seq<string>)
  {
    && |args| == 2 * |env|
    && forall i :: 0 <= i < |env| ==> args[2 * i] == "-e" && args[2 * i + 1] == Segment(env[i])
  }

  /** The `-e`, `KEY=VALUE` words of the variables of `env`, in order. */
  function EnvArgList(env: EnvMap): (args: seq<string>)
    ensures EnvArgsOf(env, args)
  {
    if env == [] then []
    else
      var init := env[..|env| - 1];
      var args := EnvArgList(init) + ["-e", Segment(env[|env| - 1])];
      assert forall i :: 0 <= i < |init| ==> init[i] == env[i];
      args
  }

  /** The loop of `deploy_playwright_automation` that extends `docker_env_args`. */
  method EnvArgs(env: EnvMap) returns (args: seq<string>)
    ensures args == EnvArgList(env)
    ensures EnvArgsOf(env, args)
  {
    args := [];
    for i := 0 to |env|
      invariant args == EnvArgList(env[..i])
    {
      var (key, value) := env[i];
      args := args + ["-e", key + "=" + value];
      assert env[..i + 1][..i] == env[..i];
    }
    assert env[..|env|] == env;
  }

  /** The `docker run` vector of an automation. */
  function RunArgv(util: string, user: string, tempDir: string, args: seq<string>, envArgs: seq<string>,
                   image: string, automation: string): seq<string>
  {
    [util, "run", "--network", "host", "--rm", "-u", user, "-v", tempDir + ":" + ContainerWorkDir + ":Z"]
    + args + envArgs + [image, "python", "-m", "automations.scripts." + automation]
  }

  function UpArgv(compose: string, templatePath: string, name: string): seq<string>
  {
    [compose, "-f", templatePath, "-p", name, "up", "-d"]
  }

  function DownArgv(compose: string, name: string): seq<string>
  {
    [compose, "-p", name, "down", "-v", "--timeout", "0", "--remove-orphans"]
  }

  /** The compose file of a version, in the templates directory. */
  function TemplatePath(templatesDir: string, version: string): string
  {
    templatesDir + "/" + TemplateFileName(version)
  }

  /** What follows a successful `compose up`: the lab URL from the project's containers,
      and the lab built from the configuration and completed by `generate_missing_config`
      (the parameter `generate`). */
  function BuildLab(name: string, version: string, config: LabConfig, pods: seq<Container>,
                    generate: Lab -> Lab): (r: Result<Lab, Exception>)
    ensures r.Err? <==> DiscoverUrl(pods).Err?
    ensures r.Err? ==> r.error == DiscoverUrl(pods).error
    ensures r.Ok? ==> r.value == generate(InitialLab(name, version, DiscoverUrl(pods).value, config))
  {
    match DiscoverUrl(pods)
    case Err(e) => Err(e)
    case Ok(url) => Ok(generate(InitialLab(name, version, url, config)))
  }

  /** Whether deploy reads the generated lab's default project to fill in the project id
      or name, which it does when the configuration leaves either of them empty. */
  predicate NeedsDefault(config: LabConfig)
  {
    PyOr(config.projectId, None) == None || PyOr(config.projectName, None) == None
  }

  /** The lab with the API key of its default project replaced. */
  function WithApiKey(lab: Lab, key: Option<string>): (r: Lab)
    requires "default" in lab.projects
    ensures r.projects.Keys == lab.projects.Keys
    ensures r.projects["default"] == lab.projects["default"].(apiKey := key)
    ensures forall k :: k in lab.projects && k != "default" ==> r.projects[k] == lab.projects[k]
    ensures r.(projects := lab.projects) == lab
  {
    lab.(projects := lab.projects["default" := lab.projects["default"].(apiKey := key)])
  }

  /** The error Response `_run_cmd_safely` returns for a failed command. */
  function CommandError(stderr: string): (r: Response)
    ensures r.error && r.data == Text(r.message)
    ensures r.message == ErrorPrefix + ExtractedError(stderr)
  {
    var msg := ErrorPrefix + ExtractedError(stderr);
    Response(msg, Text(msg), true)
  }

  class ServiceOrchestrator {
    const state: State
    /** What `shutil.which` resolves for the backend and for its compose tool. */
    const util: string
    const compose: string
    /** The templates directory and the template files it holds. */
    const templatesDir: string
    const templates: set<string>
    /** The automation scripts that exist. */
    const scripts: set<string>
    /** The variables of the default dotenv file. */
    const defaultEnv: EnvMap
    /** The automation image and the `uid:gid` the container runs as. */
    const image: string
    const user: string
    var world: map<string, seq<Container>>
    var issued: seq<Command>

    predicate Valid()
      reads this
    {
      DistinctKeys(defaultEnv)
    }

    constructor (state: State, util: string, compose: string, templatesDir: string, templates: set<string>,
                 scripts: set<string>, defaultEnv: EnvMap, image: string, uid: nat, gid: nat,
                 world: map<string, seq<Container>>)
      requires DistinctKeys(defaultEnv)
      ensures Valid() && this.state == state && this.world == world && issued == []
      ensures this.util == util && this.compose == compose && this.templatesDir == templatesDir
      ensures this.templates == templates && this.scripts == scripts && this.defaultEnv == defaultEnv
      ensures this.image == image && this.user == NatToString(uid) + ":" + NatToString(gid)
    {
      this.state := state;
      this.util := util;
      this.compose := compose;
      this.templatesDir := templatesDir;
      this.templates := templates;
      this.scripts := scripts;
      this.defaultEnv := defaultEnv;
      this.image := image;
      this.user := NatToString(uid) + ":" + NatToString(gid);
      this.world := world;
      this.issued := [];
    }

    /** `get_pods_by_project`: the containers labelled with the compose project `name`. */
    function PodsByProject(name: string): (pods: seq<Container>)
      reads this
      ensures name !in world ==> pods == []
      ensures name in world ==> pods == world[name]
    {
      if name in world then world[name] else []
    }

    /** `get_lab` on the current state. */
    function GetLab(name: string): Result<Option<Lab>, LookupError>
      reads this, state
    {
      LabModel.GetLab(state.data, name)
    }

    /** `_run_cmd_safely`: issues the command; a failure becomes an error Response. */
    method RunCmdSafely(argv: seq<string>, env: EnvMap, exit: Exit) returns (r: Option<Response>)
      modifies this
      ensures issued == old(issued) + [Command(argv, env)]
      ensures world == old(world)
      ensures r.None? <==> exit.Success?
      ensures exit.Failure? ==> r == Some(CommandError(exit.stderr))
    {
      issued := issued + [Command(argv, env)];
      if exit.Failure? {
        var msg := RunCmdErrorMessage(exit.stderr);
        return Some(Response(msg, Text(msg), true));
      }
      return None;
    }

    /** The command that runs `automation` in a throw-away container, with one `-e` pair per
        variable of `env`; the engine itself gets no extra variables. */
    function AutomationCommand(tempDir: string, args: seq<string>, env: EnvMap, automation: string): Command
    {
      Command(RunArgv(util, user, tempDir, args, EnvArgList(env), image, automation), [])
    }

    /** `deploy_playwright_automation`: runs one automation script in a throw-away container,
        passing the lab's settings as environment variables. `project` None means the lab's
        default project; `model` is the model's variables, already prefixed. */
    method DeployPlaywrightAutomation(lab: Lab, automation: string, project: Option<Project>, model: Option<EnvMap>,
                                      args: seq<string>, tempDir: string, run: AutomationRun)
      returns (r: Outcome)
      requires model.Some? ==> DistinctKeys(model.value)
      modifies this
      ensures world == old(world)
      ensures automation !in scripts ==>
        r == Returned(Response(ScriptNotFoundMsg(automation), NoData, true)) && issued == old(issued)
      ensures automation in scripts && project.None? && "default" !in lab.projects ==>
        r == Raised(MissingDefaultProject) && issued == old(issued)
      ensures automation in scripts && (project.Some? || "default" in lab.projects) ==>
        var p := if project.Some? then project.value else lab.projects["default"];
        var env := AutomationEnv(lab, p, if model.Some? then model.value else []);
        && issued == old(issued) + [AutomationCommand(tempDir, args, env, automation)]
        && r == Returned(
             match run
             case Crashed(stderr) => Response(AutomationFailedMsg(automation), CommandError(stderr).data, true)
             case Completed(result) =>
               Response(AutomationDoneMsg(automation), if result.Some? then Text(result.value) else NoData, false))
    {
      if automation !in scripts {
        return Returned(Response(ScriptNotFoundMsg(automation), NoData, true));
      }
      if project.None? && "default" !in lab.projects {
        return Raised(MissingDefaultProject);
      }
      var p := if project.Some? then project.value else lab.projects["default"];
      var env := AutomationEnv(lab, p, if model.Some? then model.value else []);
      var envArgs := EnvArgs(env);
      var argv := RunArgv(util, user, tempDir, args, envArgs, image, automation);
      var exit := if run.Crashed? then Failure(run.stderr) else Success;
      var res := RunCmdSafely(argv, [], exit);
      if res.Some? {
        return Returned(Response(AutomationFailedMsg(automation), res.value.data, true));
      }
      var data := if run.resultFile.Some? then Text(run.resultFile.value) else NoData;
      return Returned(Response(AutomationDoneMsg(automation), data, false));
    }

    /** The two guards of `deploy_appwrite_lab`: nothing runs under the lab's name yet,
        and a compose file exists for the version. */
    predicate Deployable(name: string, version: string)
      reads this
    {
      PodsByProject(name) == [] && TemplateFileName(version) in templates
    }

    /** Nothing changed since the world, commands, stored data and files were `world0`,
        `issued0`, `data0` and `files0`. */
    predicate Untouched(world0: map<string, seq<Container>>, issued0: seq<Command>,
                        data0: map<string, Json>, files0: map<string, FileContent>)
      reads this, state, state.disk
    {
      world == world0 && issued == issued0 && state.data == data0 && state.disk.files == files0
    }

    /** The end of a deployment, from the stored data and files `data0` and `files0` before
        it: a copy of the stored labs with `name` set to `stored` is written back under
        "labs" and saved, and the deployment is reported. A stored "labs" value that is not
        a dictionary raises and changes nothing; a failed save raises after the dictionary
        has changed. */
    predicate LabStored(name: string, stored: Lab, data0: map<string, Json>, files0: map<string, FileContent>,
                        r: Outcome)
      reads state, state.disk
    {
      match StoredLabs(data0)
      case None =>
        r == Raised(LabsNotADictError) && state.data == data0 && state.disk.files == files0
      case Some(labs) =>
        && state.data == data0["labs" := JObj(labs[name := LabToJson(stored)])]
        && state.disk.files == (if state.path in state.disk.readOnly then files0 else files0[state.path := Document(state.data)])
        && (state.path in state.disk.readOnly ==> r == Raised(StateWriteError))
        && (state.path !in state.disk.readOnly ==>
              r == Returned(Response(DeployedMsg(name), LabData(stored), false)) && state.Persisted())
    }

    /** A failed deployment rolled back by `teardown_service(name)`, from the world,
        commands, stored data and files before the teardown: the teardown's own effect, and
        `failed` returned unless the teardown raises.
        - No container runs under `name`: nothing is issued and nothing changes.
        - Otherwise `compose down` is issued. When it fails, nothing else changes.
        - When it succeeds the project is gone and the lab's entry is popped from the
          stored labs and saved; a stored "labs" value that is not a dictionary, or a failed
          save, raises instead. */
    predicate RolledBack(name: string, down: Exit, world0: map<string, seq<Container>>, issued0: seq<Command>,
                         data0: map<string, Json>, files0: map<string, FileContent>, r: Outcome, failed: Response)
      reads this, state, state.disk
    {
      var pods := if name in world0 then world0[name] else [];
      && (pods == [] ==> r == Returned(failed) && Untouched(world0, issued0, data0, files0))
      && (pods != [] ==> issued == issued0 + [Command(DownArgv(compose, name), [])])
      && (pods != [] && down.Failure? ==>
            r == Returned(failed) && world == world0 && state.data == data0 && state.disk.files == files0)
      && (pods != [] && down.Success? ==>
            && world == world0 - {name}
            && match StoredLabs(data0)
               case None =>
                 r == Raised(LabsNotADictError) && state.data == data0 && state.disk.files == files0
               case Some(labs) =>
                 && state.data == data0["labs" := JObj(labs - {name})]
                 && state.disk.files == (if state.path in state.disk.readOnly then files0 else files0[state.path := Document(state.data)])
                 && (state.path in state.disk.readOnly ==> r == Raised(StateWriteError))
                 && (state.path !in state.disk.readOnly ==> r == Returned(failed) && state.Persisted()))
    }

    /** Creating the first API key and storing the lab, from the world, commands, stored
        data and files before it. A missing automation script gives an error Response and
        the lab is rolled back. A missing default project raises. Otherwise the automation's
        `run` command is issued; when it completes, the lab holding the key it left behind is
        stored; when it crashes, the lab is rolled back, with the automation's error data. */
    predicate KeyStep(name: string, lab: Lab, model: EnvMap, tempDir: string, run: AutomationRun, down: Exit,
                      world0: map<string, seq<Container>>, issued0: seq<Command>,
                      data0: map<string, Json>, files0: map<string, FileContent>, r: Outcome)
      requires DistinctKeys(model)
      reads this, state, state.disk
    {
      if CreateUserAndApiKey !in scripts then
        RolledBack(name, down, world0, issued0, data0, files0, r, Response(ApiKeyFailedMsg(name), NoData, true))
      else if "default" !in lab.projects then
        r == Raised(MissingDefaultProject) && Untouched(world0, issued0, data0, files0)
      else
        var cmd := AutomationCommand(tempDir, [], AutomationEnv(lab, lab.projects["default"], model), CreateUserAndApiKey);
        match run
        case Crashed(stderr) =>
          RolledBack(name, down, world0, issued0 + [cmd], data0, files0, r,
                     Response(ApiKeyFailedMsg(name), CommandError(stderr).data, true))
        case Completed(result) =>
          issued == issued0 + [cmd] && world == world0 && LabStored(name, WithApiKey(lab, result), data0, files0, r)
    }

    /** What `deploy_appwrite_lab` does once the lab is built, from the world, commands,
        stored data and files at that point. A lab without a default project raises when the
        configuration leaves the project id or name empty; `just_deploy` returns the lab;
        otherwise the API key step follows, for the configured project name or else the
        default project's. */
    predicate Finished(name: string, lab: Lab, config: LabConfig, justDeploy: bool, apiKeyEnv: Option<string> -> EnvMap,
                       tempDir: string, run: AutomationRun, down: Exit,
                       world0: map<string, seq<Container>>, issued0: seq<Command>,
                       data0: map<string, Json>, files0: map<string, FileContent>, r: Outcome)
      requires forall n :: DistinctKeys(apiKeyEnv(n))
      reads this, state, state.disk
    {
      if NeedsDefault(config) && "default" !in lab.projects then
        r == Raised(MissingDefaultProject) && Untouched(world0, issued0, data0, files0)
      else if justDeploy then
        r == Returned(Response(JustDeployedMsg(name), LabData(lab), false)) && Untouched(world0, issued0, data0, files0)
      else
        var projName := PyOr(config.projectName, if "default" in lab.projects then lab.projects["default"].projectName else None);
        KeyStep(name, lab, apiKeyEnv(projName), tempDir, run, down, world0, issued0, data0, files0, r)
    }

    /** The last part of `deploy_appwrite_lab`, once the lab is built: the automation that
        creates the first API key, then the lab stored under its name. When the automation
        fails the lab is torn down and the error returned with a new message. `model` is the
        API key model's variables, already prefixed. */
    method CreateApiKeyAndStore(name: string, lab: Lab, model: EnvMap, tempDir: string, run: AutomationRun, down: Exit)
      returns (r: Outcome)
      requires DistinctKeys(model)
      modifies this, state, state.disk
      ensures state.disk.readOnly == old(state.disk.readOnly)
      ensures KeyStep(name, lab, model, tempDir, run, down, old(world), old(issued), old(state.data), old(state.disk.files), r)
    {
      var apiKeyRes := DeployPlaywrightAutomation(lab, CreateUserAndApiKey, None, Some(model), [], tempDir, run);
      if apiKeyRes.Raised? {
        return apiKeyRes;
      }
      var res := apiKeyRes.response;
      if res.error {
        r := AbortDeployment(name, res, down);
        return;
      }
      var stored := WithApiKey(lab, if res.data.Text? then Some(res.data.text) else None);
      r := StoreLab(name, stored);
    }

    /** A deployment whose API key automation failed: the lab is torn down and the
        automation's response is returned with a new message; an exception from the
        teardown propagates instead. */
    method AbortDeployment(name: string, res: Response, down: Exit) returns (r: Outcome)
      modifies this, state, state.disk
      ensures state.disk.readOnly == old(state.disk.readOnly)
      ensures old(issued) <= issued
      ensures RolledBack(name, down, old(world), old(issued), old(state.data), old(state.disk.files), r,
                         res.(message := ApiKeyFailedMsg(name)))
    {
      var td := TeardownService(name, down);
      if td.Raised? {
        return td;
      }
      return Returned(res.(message := ApiKeyFailedMsg(name)));
    }

    /** The end of a deployment: a copy of the stored labs with `name` set to the lab is
        written back under "labs", and the deployment is reported. */
    method StoreLab(name: string, stored: Lab) returns (r: Outcome)
      modifies state, state.disk
      ensures state.disk.readOnly == old(state.disk.readOnly)
      ensures LabStored(name, stored, old(state.data), old(state.disk.files), r)
    {
      var labs := StoredLabs(state.data);
      if labs.None? {
        return Raised(LabsNotADictError);
      }
      var saved := state.Set("labs", JObj(labs.value[name := LabToJson(stored)]));
      if !saved {
        return Raised(StateWriteError);
      }
      return Returned(Response(DeployedMsg(name), LabData(stored), false));
    }

    /** `deploy_appwrite_lab`. `up` and `started` are how `compose up` ends and the
        containers it leaves running; `generate` is `Lab.generate_missing_config`;
        `apiKeyEnv` gives the prefixed variables of the API key model for a project name;
        `run` is how the automation ends and `down` how the teardown after a failed
        automation ends. An exception raised after `compose up` leaves the stack running. */
    method DeployAppwriteLab(name: string, version: string, port: int, config: LabConfig, justDeploy: bool,
                             up: Exit, started: seq<Container>, generate: Lab -> Lab,
                             apiKeyEnv: Option<string> -> EnvMap, tempDir: string, run: AutomationRun, down: Exit)
      returns (r: Outcome)
      requires Valid()
      requires forall n :: DistinctKeys(apiKeyEnv(n))
      modifies this, state, state.disk
      ensures state.disk.readOnly == old(state.disk.readOnly)
      ensures old(PodsByProject(name)) != [] ==>
        && r == Returned(Response(AlreadyDeployedMsg(name), NoData, true))
        && Untouched(old(world), old(issued), old(state.data), old(state.disk.files))
      ensures old(PodsByProject(name)) == [] && TemplateFileName(version) !in templates ==>
        && r == Returned(Response(TemplateNotFoundMsg(version), NoData, true))
        && Untouched(old(world), old(issued), old(state.data), old(state.disk.files))
      ensures old(Deployable(name, version)) ==>
        && |issued| > |old(issued)| && old(issued) <= issued
        && issued[|old(issued)|] == Command(UpArgv(compose, TemplatePath(templatesDir, version), name), AppEnv(defaultEnv, port))
      ensures old(Deployable(name, version)) && up.Failure? ==>
        && r == Returned(CommandError(up.stderr))
        && |issued| == |old(issued)| + 1 && world == old(world)
        && state.data == old(state.data) && state.disk.files == old(state.disk.files)
      ensures old(Deployable(name, version)) && up.Success? && BuildLab(name, version, config, started, generate).Err? ==>
        && r == Raised(BuildLab(name, version, config, started, generate).error)
        && |issued| == |old(issued)| + 1 && world == old(world)[name := started]
        && state.data == old(state.data) && state.disk.files == old(state.disk.files)
      ensures old(Deployable(name, version)) && up.Success? && BuildLab(name, version, config, started, generate).Ok? ==>
        Finished(name, BuildLab(name, version, config, started, generate).value, config, justDeploy, apiKeyEnv,
                 tempDir, run, down, old(world)[name := started],
                 old(issued) + [Command(UpArgv(compose, TemplatePath(templatesDir, version), name), AppEnv(defaultEnv, port))],
                 old(state.data), old(state.disk.files), r)
    {
      if PodsByProject(name) != [] {
        return Returned(Response(AlreadyDeployedMsg(name), NoData, true));
      }
      if TemplateFileName(version) !in templates {
        return Returned(Response(TemplateNotFoundMsg(version), NoData, true));
      }
      var env := AppEnv(defaultEnv, port);
      var upRes := RunCmdSafely(UpArgv(compose, TemplatePath(templatesDir, version), name), env, up);
      if upRes.Some? {
        return Returned(upRes.value);
      }
      world := world[name := started];
      var built := BuildLab(name, version, config, started, generate);
      if built.Err? {
        return Raised(built.error);
      }
      r := FinishDeployment(name, built.value, config, justDeploy, apiKeyEnv, tempDir, run, down);
    }

    /** The part of `deploy_appwrite_lab` after the lab is built: the project id and name
        are completed from the default project, `just_deploy` stops there, and otherwise the
        API key is created and the lab stored. */
    method FinishDeployment(name: string, lab: Lab, config: LabConfig, justDeploy: bool,
                            apiKeyEnv: Option<string> -> EnvMap, tempDir: string, run: AutomationRun, down: Exit)
      returns (r: Outcome)
      requires forall n :: DistinctKeys(apiKeyEnv(n))
      modifies this, state, state.disk
      ensures state.disk.readOnly == old(state.disk.readOnly)
      ensures old(issued) <= issued
      ensures Finished(name, lab, config, justDeploy, apiKeyEnv, tempDir, run, down,
                       old(world), old(issued), old(state.data), old(state.disk.files), r)
    {
      if NeedsDefault(config) && "default" !in lab.projects {
        return Raised(MissingDefaultProject);
      }
      var projName := PyOr(config.projectName, if "default" in lab.projects then lab.projects["default"].projectName else None);
      if justDeploy {
        return Returned(Response(JustDeployedMsg(name), LabData(lab), false));
      }
      ghost var world0, issued0, data0, files0 := world, issued, state.data, state.disk.files;
      r := CreateApiKeyAndStore(name, lab, apiKeyEnv(projName), tempDir, run, down);
      KeyStepExtends(name, lab, apiKeyEnv(projName), tempDir, run, down, world0, issued0, data0, files0, r);
    }

    /** Whatever way the API key step ends, it only appends to the issued commands. */
    lemma KeyStepExtends(name: string, lab: Lab, model: EnvMap, tempDir: string, run: AutomationRun, down: Exit,
                         world0: map<string, seq<Container>>, issued0: seq<Command>,
                         data0: map<string, Json>, files0: map<string, FileContent>, r: Outcome)
      requires DistinctKeys(model)
      requires KeyStep(name, lab, model, tempDir, run, down, world0, issued0, data0, files0, r)
      ensures issued0 <= issued
    {
      if CreateUserAndApiKey !in scripts {
        RolledBackExtends(name, down, world0, issued0, data0, files0, r, Response(ApiKeyFailedMsg(name), NoData, true));
      } else if "default" in lab.projects {
        var cmd := AutomationCommand(tempDir, [], AutomationEnv(lab, lab.projects["default"], model), CreateUserAndApiKey);
        assert issued0 <= issued0 + [cmd];
        if run.Crashed? {
          RolledBackExtends(name, down, world0, issued0 + [cmd], data0, files0, r,
                            Response(ApiKeyFailedMsg(name), CommandError(run.stderr).data, true));
        }
      }
    }

    /** A rollback only appends to the issued commands. */
    lemma RolledBackExtends(name: string, down: Exit, world0: map<string, seq<Container>>, issued0: seq<Command>,
                            data0: map<string, Json>, files0: map<string, FileContent>, r: Outcome, failed: Response)
      requires RolledBack(name, down, world0, issued0, data0, files0, r, failed)
      ensures issued0 <= issued
    {
      assert issued0 <= issued0 + [Command(DownArgv(compose, name), [])];
    }

    /** `teardown_service`: takes the compose project down and forgets the lab. A failed
        `compose down` keeps the lab's entry in the state. */
    method TeardownService(name: string, down: Exit) returns (r: Outcome)
      modifies this, state, state.disk
      ensures state.disk.readOnly == old(state.disk.readOnly)
      ensures old(PodsByProject(name)) == [] ==>
        && r == Returned(Response(NothingToStopMsg(name), NoData, true))
        && issued == old(issued) && world == old(world)
        && state.data == old(state.data) && state.disk.files == old(state.disk.files)
      ensures old(PodsByProject(name)) != [] ==> issued == old(issued) + [Command(DownArgv(compose, name), [])]
      ensures old(PodsByProject(name)) != [] && down.Failure? ==>
        && r == Returned(Response(TeardownFailedMsg(name), CommandError(down.stderr).data, true))
        && world == old(world) && state.data == old(state.data) && state.disk.files == old(state.disk.files)
      ensures old(PodsByProject(name)) != [] && down.Success? ==>
        && world == old(world) - {name}
        && match StoredLabs(old(state.data))
           case None =>
             r == Raised(LabsNotADictError)
             && state.data == old(state.data) && state.disk.files == old(state.disk.files)
           case Some(labs) =>
             && state.data == old(state.data)["labs" := JObj(labs - {name})]
             && state.disk.files == (if state.path in state.disk.readOnly then old(state.disk.files)
                                     else old(state.disk.files)[state.path := Document(state.data)])
             && (state.path in state.disk.readOnly ==> r == Raised(StateWriteError))
             && (state.path !in state.disk.readOnly ==>
                   r == Returned(Response(StoppedMsg(name), NoData, false)) && state.Persisted())
    {
      if PodsByProject(name) == [] {
        return Returned(Response(NothingToStopMsg(name), NoData, true));
      }
      var res := RunCmdSafely(DownArgv(compose, name), [], down);
      if res.Some? {
        return Returned(Response(TeardownFailedMsg(name), res.value.data, true));
      }
      world := world - {name};
      var labs := StoredLabs(state.data);
      if labs.None? {
        return Raised(LabsNotADictError);
      }
      var saved := state.Set("labs", JObj(labs.value - {name}));
      if !saved {
        return Raised(StateWriteError);
      }
      return Returned(Response(StoppedMsg(name), NoData, false));
    }
  }
}
