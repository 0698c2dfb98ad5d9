# appwrite-lab core, modelled in Dafny

appwrite-lab spins up local Appwrite instances ("labs") with Docker or Podman
compose. It runs a browser automation in a throw-away container to create the
admin user and a first API key, and records each lab in a JSON state file. This
project models the core of that tool and proves properties of the model:

- **`ServiceOrchestrator`** (`Orchestrator`, a class). It covers deploying a lab,
  running an automation, tearing a lab down and `_run_cmd_safely`. The container
  engine is two fields: `world`, the containers each compose project runs, and
  `issued`, the commands sent to the engine. How each command ends is a parameter.
- **The orchestrator's text processing** (`OrchestratorText`):
  - the message `run_cmd` raises, found by a loop over the stderr lines;
  - the mapping between versions and template file names;
  - splitting line-delimited `ps` output;
  - reading the host port from a `Ports` string;
  - choosing the backend.
- **The lab records** (`LabModel`). A lab goes into the state as `asdict(lab)` and
  comes back as `Lab(**...)`. `get_lab` is modelled with every exception it can
  raise.
- **The state store** (`StateStore`). `State` is a class over a `Disk` class: a
  dictionary in memory, mirrored in one file.
- **`env_dict_to_str` and Python dict semantics** (`EnvFormat`). `d[k] = v` and
  `{**a, **b}` are modelled on an insertion-ordered sequence of entries.
- **The credentials `generate` cuts from one uuid** (`Credentials`).
- **The `appwrite` CLI builders and `execute_same_shell`** (`AppwriteCli`).
- **The SELinux template patch script** (`SelinuxPatch`). The script rewrites
  arrays of services in place.
- **The fake Twilio SMS shim** (`SmsShim`), a class holding the message buffer.

`PyStr` holds the Python string operations the source uses:
- `strip`;
- `split` on one character, and `join`;
- `replace`, `removeprefix`, slicing;
- `int` and `str` of decimal numbers.

Three behaviours of the code that the model keeps:
- A failed `compose down` in `teardown_service` returns before the state is touched, so
  the lab's entry stays (appwrite_lab/_orchestrator.py:391-398).
- `_stdout_to_json` hands every non-blank `ps` line to `json.loads`; a line that is not
  JSON raises and is not skipped (appwrite_lab/_orchestrator.py:516-523).
- A traefik container that publishes a single port mapping fails the `len(ports) > 1`
  assertion of `deploy_appwrite_lab` (appwrite_lab/_orchestrator.py:211-218).

## Model

| member | source | states |
|---|---|---|
| PyStr.JoinSplit | appwrite_lab/_orchestrator.py:481 | joining the parts of `s.split(c)` with `c` gives back `s` |
| PyStr.SplitJoin | appwrite_lab/_orchestrator.py:481 | splitting parts joined with `c`, none of which holds `c`, gives back the parts |
| PyStr.StripEmptyIffBlank | appwrite_lab/_orchestrator.py:478-479 | `strip()` gives the empty string exactly when every character is whitespace |
| PyStr.NatToStringValue | appwrite_lab/_orchestrator.py:543 | the decimal text of `n` reads back, as `int(...)` does, as `n` |
| EnvFormat.EnvDictToStr | appwrite_lab/automations/utils.py:28-35 | the rendering is empty exactly when the dict is empty |
| EnvFormat.EnvStrLength | appwrite_lab/playwright/utils.py:25-32 | n >= 1 entries render as the `key=value` texts plus n - 1 separating spaces |
| EnvFormat.EnvStrRoundTrip | appwrite_lab/automations/utils.py:35 | the rendering parses back to the same entries when keys hold no space or `=` and values hold no space |
| EnvFormat.EnvStrNotEscaped | appwrite_lab/automations/utils.py:35 | nothing is escaped, so a value holding ` B=2` renders like a second entry |
| EnvFormat.Update | appwrite_lab/_orchestrator.py:199-200 | `d[k] = v` keeps keys distinct, `k` maps to `v`, other keys are unchanged, an existing key keeps its place and a new one goes last |
| EnvFormat.MergeLookup | appwrite_lab/_orchestrator.py:315-324 | in `{**a, **b}` a key takes `b`'s value when `b` has it, else `a`'s |
| EnvFormat.MergeKeysPrefix | appwrite_lab/_orchestrator.py:315-324 | `{**a, **b}` lists `a`'s keys first, in `a`'s order |
| StateStore.StatePath | appwrite_lab/_state.py:19-20 | a missing or empty path falls back to the default state path |
| StateStore.State.Open | appwrite_lab/_state.py:12-35 | a missing file is created holding `{}` and the store starts empty; an unwritable one raises CreateFailed; an unreadable one raises LoadFailed; otherwise the data is the file's dictionary |
| StateStore.State.Get | appwrite_lab/_state.py:44-54 | the stored value, or the default when the key is absent |
| StateStore.State.Save | appwrite_lab/_state.py:37-42 | the file holds the whole dictionary after a successful write; a failed write changes no file |
| StateStore.State.Set | appwrite_lab/_state.py:56-61 | only `key` changes in memory, whatever the save does; the file mirrors the dictionary exactly when the write succeeds |
| LabModel.ProjectsRoundTrip | appwrite_lab/_orchestrator.py:62-63 | the `asdict` form of a projects dict reads back through `Project(**...)` as the same dict |
| LabModel.LabRoundTrip | appwrite_lab/_orchestrator.py:55-64 | a lab stored with `asdict` is read back by `Lab(**...)` unchanged |
| LabModel.LabToJsonInjective | appwrite_lab/_orchestrator.py:259 | two labs with the same stored form are the same lab |
| LabModel.StoredLabs | appwrite_lab/_orchestrator.py:59 | `state.get("labs", {})` gives `{}` when the key is missing and a dict exactly when the stored value is one |
| LabModel.GetLab | appwrite_lab/_orchestrator.py:55-64 | a "labs" value that is not a dictionary raises, and nothing else does so; None exactly when no truthy record is stored under the name; a truthy record that is not a dictionary raises, and so does a dictionary whose fields do not build a lab; otherwise exactly the lab read back from the record |
| LabModel.GetLabAfterStore | appwrite_lab/_orchestrator.py:257-259 | after a lab is stored under its name, `get_lab` returns that lab |
| LabModel.GetLabOthersAfterStore | appwrite_lab/_orchestrator.py:257-259 | storing one lab leaves `get_lab` of every other name unchanged |
| LabModel.GetLabAfterRemove | appwrite_lab/_orchestrator.py:396-398 | after the pop, `get_lab` finds nothing under the name and every other name reads as before |
| OrchestratorText.LastMarked | appwrite_lab/_orchestrator.py:482-483 | the bottom-most line naming PlaywrightAutomationError or OrchestratorError, or None when no line does |
| OrchestratorText.MarkedLineHasColon | appwrite_lab/_orchestrator.py:483-485 | every marked line holds a colon, so the colon test never fails |
| OrchestratorText.ScanLines | appwrite_lab/_orchestrator.py:481-487 | the bottom-up loop gives what follows the first colon of the bottom-most marked line, stripped, or else the stripped stderr |
| OrchestratorText.RunCmdErrorMessage | appwrite_lab/_orchestrator.py:477-488 | the raised message is the fixed prefix followed by the error extracted from the stripped stderr |
| OrchestratorText.ExtractedErrorOfTraceback | appwrite_lab/_orchestrator.py:477-488 | a traceback ending in `<...>OrchestratorError: m` or `<...>PlaywrightAutomationError: m` reports exactly `m`, whatever lies above it |
| OrchestratorText.TemplateVersions | appwrite_lab/_orchestrator.py:492-513 | an error exactly when the templates directory is missing, with the source's message; otherwise the version of each `*.yml` path, at the same position |
| OrchestratorText.TemplateRoundTrip | appwrite_lab/_orchestrator.py:189-194 | a version without `_` or `/`, turned into its template path and read back as `get_template_versions` does, is the same version |
| OrchestratorText.DeployableVersionListed | appwrite_lab/_orchestrator.py:492-513 | every such version whose template file exists is listed by `get_template_versions` |
| OrchestratorText.StdoutToJson | appwrite_lab/_orchestrator.py:516-523 | one record per non-blank line, in order, each the parse of its line; the first line that does not parse raises: every line before it parses |
| OrchestratorText.NonBlank | appwrite_lab/_orchestrator.py:523 | no kept line is blank, and a line is kept exactly when it is among the input lines and not blank |
| OrchestratorText.NonBlankSnoc | appwrite_lab/_orchestrator.py:523 | one more line adds itself after the kept lines unless it is blank: the kept lines are the non-blank lines in their order |
| OrchestratorText.RecordLinesOfPrinted | appwrite_lab/_orchestrator.py:516-523 | records printed one per line come back as exactly those lines |
| OrchestratorText.FindPort | appwrite_lab/_orchestrator.py:541 | the leftmost match of `:(\d+)->80/tcp` at or after a position, as `re.search` finds it, or None when there is none |
| OrchestratorText.ExtractPort | appwrite_lab/_orchestrator.py:533-545 | a missing `Ports` key and a `Ports` text without a match raise (each exactly in its case); otherwise the digits of the leftmost match |
| OrchestratorText.ExtractPortOfMapping | appwrite_lab/_orchestrator.py:533-545 | `<host>:<port>->80/tcp...` with a colon-free host gives back `port` |
| OrchestratorText.DetectBackend | appwrite_lab/_orchestrator.py:455-461 | docker exactly when docker and docker-compose resolve; otherwise podman exactly when podman and podman-compose resolve; otherwise an error |
| Orchestrator.PyOr | appwrite_lab/_orchestrator.py:237-238 | `a or b`: `a` when it is a non-empty string, `b` when it is None or empty |
| Orchestrator.AppEnv | appwrite_lab/_orchestrator.py:198-200 | `_APP_PORT` is the port's text when the port is not 80; every other variable, and all of them for port 80, is the dotenv default |
| Orchestrator.LastNamed | appwrite_lab/_orchestrator.py:110-129 | the dict keyed by container name keeps the last container listed under that name |
| Orchestrator.DiscoverUrl | appwrite_lab/_orchestrator.py:211-221 | the URL is empty exactly when the project runs no traefik container; otherwise, for the `Ports` of the last container so named: a missing key raises a key error, text the port pattern does not match raises, a single mapping fails the assertion, and more than one gives `http://localhost:<port>` of the extracted port |
| Orchestrator.LastNamedAt | appwrite_lab/_orchestrator.py:123-128 | the dictionary keyed by name keeps the last container of a name: a container with no later namesake is the one found |
| Orchestrator.DiscoverUrlOfMapping | appwrite_lab/_orchestrator.py:211-221 | when the last traefik container, wherever it is listed, has `Ports` text `<host>:<port>->80/tcp,...`, the URL is that of the port |
| Orchestrator.DiscoverUrlSingleMapping | appwrite_lab/_orchestrator.py:214-218 | when the last traefik container, wherever it is listed, publishes one mapping only, the `len(ports) > 1` assertion fails |
| Orchestrator.InitialLab | appwrite_lab/_orchestrator.py:222-235 | the new lab has exactly one project, "default", with the configured id and name and no key |
| Orchestrator.AutomationEnv | appwrite_lab/_orchestrator.py:315-324 | the seven connection variables come first; a model variable overrides the one with the same key |
| Orchestrator.EnvArgs | appwrite_lab/_orchestrator.py:325-327 | the loop builds exactly `EnvArgList`: one `-e`, `KEY=VALUE` pair per variable, in order |
| Orchestrator.EnvArgList | appwrite_lab/_orchestrator.py:325-327 | the `-e` arguments built from a list of variables: one `-e`, `KEY=VALUE` pair per variable, in order |
| Orchestrator.BuildLab | appwrite_lab/_orchestrator.py:211-236 | fails exactly when the URL discovery raises, with its exception; otherwise the lab built from the URL and the configuration, completed by `generate_missing_config` |
| Orchestrator.WithApiKey | appwrite_lab/_orchestrator.py:256 | only the default project's API key changes |
| Orchestrator.CommandError | appwrite_lab/_orchestrator.py:433-444 | a failed command becomes an error Response whose message and data are both the `run_cmd` message |
| Orchestrator.ServiceOrchestrator.PodsByProject | appwrite_lab/_orchestrator.py:414-431 | the containers of the named compose project, none for an unknown project |
| Orchestrator.ServiceOrchestrator.RunCmdSafely | appwrite_lab/_orchestrator.py:433-444 | the command is issued; nothing is returned exactly on success; a failure returns the error Response |
| Orchestrator.ServiceOrchestrator.DeployPlaywrightAutomation | appwrite_lab/_orchestrator.py:269-365 | a missing script gives an error Response and issues nothing; a missing default project raises; otherwise exactly the `run` command `AutomationCommand` is issued: the mounts, the image, the automation and the `-e` pairs of its variables; a crash gives the failure message with the command's error data, and success gives the result file's text, if any |
| Orchestrator.ServiceOrchestrator.DeployAppwriteLab | appwrite_lab/_orchestrator.py:160-267 | returns without any effect when the project runs or the template is missing; otherwise `compose up` is issued first, with the port's environment; its failure is returned; a lab that cannot be built raises with the stack left running; from the started world and the one `compose up` command, the rest is exactly as `Finished` states (row below) |
| Orchestrator.ServiceOrchestrator.FinishDeployment | appwrite_lab/_orchestrator.py:235-267 | `Finished`: an empty project id or name in the configuration, with no default project, raises and changes nothing; `just_deploy` returns the lab and changes nothing; otherwise the API key step of the row below, with the configured project name or else the default project's |
| Orchestrator.ServiceOrchestrator.CreateApiKeyAndStore | appwrite_lab/_orchestrator.py:246-267 | `KeyStep`: a missing script rolls the lab back (`RolledBack`) and returns the "failed to create API key" Response; a missing default project raises and changes nothing; otherwise the one automation command is issued; a crash rolls the lab back, returning the command's error data; a completed run stores the lab holding the key it left (`LabStored`) |
| Orchestrator.ServiceOrchestrator.KeyStepExtends | appwrite_lab/_orchestrator.py:246-267 | however the API key step ends, it only appends to the issued commands |
| Orchestrator.ServiceOrchestrator.AbortDeployment | appwrite_lab/_orchestrator.py:252-255 | `RolledBack`: exactly the effect of `teardown_service` (nothing when no container runs; else `compose down` is issued, and on success the project is gone and the lab's entry popped and saved), then the automation's Response with the "failed to create API key" message, unless the teardown raises; a failed save changes no file, and a successful one rewrites the state file only |
| Orchestrator.ServiceOrchestrator.RolledBackExtends | appwrite_lab/_orchestrator.py:252-255 | a rollback only appends to the issued commands |
| Orchestrator.ServiceOrchestrator.StoreLab | appwrite_lab/_orchestrator.py:257-267 | `LabStored`: a "labs" value that is not a dictionary raises and changes nothing; otherwise a copy of the stored labs with the lab under its name is set under "labs"; a failed save raises, and a successful one persists the data and reports the deployment; a failed save changes no file, and a successful one rewrites the state file only |
| Orchestrator.ServiceOrchestrator.TeardownService | appwrite_lab/_orchestrator.py:367-403 | nothing runs: an error Response and no command; otherwise `compose down` is issued; a failure keeps the lab's state entry; success removes the project and the lab's entry; a failed save changes no file, and a successful one rewrites the state file only |
| Credentials.Generate | appwrite_lab/automations/models.py:12-27 | the project id is the key, the password its first 16 characters, and the email and project name end in its last 6 |
| Credentials.PasswordOfUuid | appwrite_lab/automations/models.py:14-17 | for a uuid the password is 16 characters and a prefix of the project id |
| Credentials.SharedSuffix | appwrite_lab/automations/models.py:16-20 | for a uuid the email and project name share the key's last six hex digits |
| Credentials.KeyRecovered | appwrite_lab/automations/models.py:12-27 | different keys give different credentials |
| Credentials.ShortKey | appwrite_lab/automations/models.py:14-18 | a key shorter than six characters is used whole, as Python slicing does |
| AppwriteCli.Login | appwrite_lab/playwright/common.py:18-40 | the eight words of `appwrite login` with endpoint, email and password in place, and no variables |
| AppwriteCli.GetProject | appwrite_lab/playwright/common.py:42-50 | the words of `appwrite projects get --project-id <id>`, and no variables |
| AppwriteCli.ShellLine | appwrite_lab/playwright/common.py:61-67 | the words joined by spaces, preceded by the rendered variables exactly when the executor has some |
| AppwriteCli.ExecuteSameShell | appwrite_lab/playwright/common.py:53-71 | runs `bash -c` with the executors' lines, in order, joined by ` && ` |
| AppwriteCli.CombinedLineSnoc | appwrite_lab/playwright/common.py:70 | one more executor adds ` && ` and its line at the end |
| AppwriteCli.ShellLineWithEnv | appwrite_lab/playwright/common.py:63-66 | variables come first on the line; an empty dict counts as none |
| SelinuxPatch.IsSkipped | scripts/selinuxify_template_patch.py:27-37 | the loop skips a volume exactly when one of its `:` parts is `/tmp` or ends in `Z` |
| SelinuxPatch.PatchedIsLabelled | scripts/selinuxify_template_patch.py:35-39 | every rewritten volume carries the label the script looks for |
| SelinuxPatch.PatchedIdempotent | scripts/selinuxify_template_patch.py:27-39 | rewriting a volume twice is rewriting it once |
| SelinuxPatch.PatchVolumes | scripts/selinuxify_template_patch.py:22-42 | the new list rewrites each string volume and keeps every other entry; the change flag is set exactly when some volume was rewritten |
| SelinuxPatch.PatchTemplate | scripts/selinuxify_template_patch.py:21-42 | every service with volumes gets its rewritten list in place; the flag is set exactly when some service had a volume to rewrite |
| SelinuxPatch.PatchTemplates | scripts/selinuxify_template_patch.py:13-50 | every template is patched; `changes_made` is set exactly when some template had a volume to rewrite, and it selects the closing message |
| SelinuxPatch.SecondRunChangesNothing | scripts/selinuxify_template_patch.py:21-42 | a service patched once is left as it is by a second pass, which rewrites nothing |
| SelinuxPatch.SecondRunReportsNoChange | scripts/selinuxify_template_patch.py:13-50 | a second run over a patched template leaves it as it is and reports that nothing changed |
| SmsShim.KeepLast | twilio-shim/main.py:13-14 | `del MESSAGES[:-n]` keeps the newest `min(len, n)` messages, in order |
| SmsShim.Reversed | twilio-shim/main.py:43 | `reversed` puts the i-th message from the end at position i |
| SmsShim.PageRowsNewestFirst | twilio-shim/main.py:41-44 | a newly appended message heads the rows, ahead of the rows of all older ones |
| SmsShim.PageRowsSplit | twilio-shim/main.py:41-44 | the newer part of the buffer is shown before the older part |
| SmsShim.SentMessageShownFirst | twilio-shim/main.py:22-44 | a sent message is the first row of the page, showing its to, from, body and time |
| SmsShim.InboxShownFirst | twilio-shim/main.py:9-44 | after an inbox post the first row is the posted message, stamped with its time |
| SmsShim.Shim.Inbox | twilio-shim/main.py:9-15 | the stamped payload is appended and only the newest 100 are kept; the reply is ok |
| SmsShim.Shim.SendSms | twilio-shim/main.py:22-37 | the message is appended without trimming; the answer is 201 with the fake sid, "queued" and the echoed fields |
| SmsShim.Shim.ListInbox | twilio-shim/main.py:17-19 | the buffer, unchanged |
| SmsShim.Shim.Home | twilio-shim/main.py:39-51 | the fixed page around the rows of the buffer, newest first; an empty buffer gives the bare page |

## Left out

- Processes, files and the environment are not modelled. This covers `subprocess.run`,
  `shutil.which`, `tempfile`, `copytree`, `os.environ`, `os.getuid` and the dotenv file.
  Each becomes a parameter or a constant field: the exit of each command, the
  containers `compose up` leaves, the existing templates and scripts, the default
  variables, the uid and gid.
- `os.environ` is not merged into the environment of `compose up`
  (`_deploy_service`). The model records only the variables the lab sets.
- `json.loads`, `dotenv_values`, `generate_missing_config` and `as_dict_with_prefix` are
  parameters. Their code is not part of this model, so no rules are invented for them.
- Key order of JSON objects is not modelled: objects are maps.
- A state file holding JSON that is not an object (a list, say) is not modelled. The
  file is either an object or unreadable.
- The `Lab` class definition is not part of this model. It is modelled with the
  fields the orchestrator reads and writes, and string values only.
  - An `appwrite_config` key other than project id, name, admin email and password
    is not modelled.
  - A missing admin email or password becomes the empty string.
- `get_labs`, `get_formatted_labs`, `get_running_pods`, `check_pod_status` and the
  CLI are not modelled. They only list or format.
- `Response.__post_init__` and the `_print_data` flag are not modelled. They only print.
- `print` in the SMS shim, the clock (the timestamp is a parameter) and HTTP routing
  are not modelled.
- In the model, `ps` queries read `world` and are not recorded in `issued`.
- A failing `ps` query is not modelled. In the code, `run_cmd` raises `OrchestratorError`
  on a non-zero exit (appwrite_lab/_orchestrator.py:421-431, 477-488), and `json.loads`
  raises on a malformed line (appwrite_lab/_orchestrator.py:516-523, 122-128). Such an
  exception would escape `deploy_appwrite_lab` and `teardown_service`. In the model,
  `PodsByProject` reads `world` and cannot fail.
- Orchestrator.ServiceOrchestrator.DeployAppwriteLab: does not model the in-place `pop`
  on the caller's `meta["appwrite_config"]`, nor an `api_key` set on the caller's lab
  object. The model works on values and returns the new lab.
- SmsShim.Shim.Inbox: does not model that the caller's payload dict is changed in
  place. The stored message is a new map.
- Message values of the SMS shim are strings only. The shim accepts any JSON value.
- SelinuxPatch.PatchTemplates: the YAML load and dump is not modelled. A template is
  its array of services; `original_data` is never used.
- `OrchestratorText.Lines` breaks at the characters where `str.splitlines` does. It does
  not fold `\r\n` into one break. The blank lines this adds are dropped by the filter
  that follows, so the records are the same.
- `\d` in the port pattern is taken as ASCII digits. Python also matches other Unicode
  decimal digits.
- An `assert` is removed under `python -O`. The model keeps the assertion, as the
  exception `TooFewPorts`.
- The `CommandExecutor.run` of the CLI builders is not modelled. `ExecuteSameShell`
  yields the `bash -c` vector it would run.
