# pulp-smash, modelled in Dafny

pulp-smash is a functional test toolkit for Pulp, the content repository
manager. Around its network and shell I/O sits a layer of small pure rules.
This project models that layer and proves properties about it:

- the settings file: its JSON schema, the required-role check, reading it
  with defaults, host lookup by role, the role to service table, the base
  URL and the request arguments of the `api` role;
- the command-line client: transport choice and its memo, the default
  host, argument rewriting for containers and `sudo`, the return-code
  check, and the service manager, package manager and registry client
  detectors;
- bug gating: the bug tracker's target platform release field, status
  classification, `bug_is_fixed`, `require` and `skip_if`;
- the settings wizard: version and timeout validation, and the role
  dictionaries it writes for Pulp 2 and Pulp 3 hosts;
- the REST client: call-report and task checks, 202 handling, the
  response handlers, keyword-argument merging, and task polling;
- the Pulp 2 and Pulp 3 helpers: publish bodies, upload chunking, version
  guards, unit searches, repository modification parameters, unit URLs
  and version numbers;
- small helpers of the test suites: the Docker repository and distributor
  bodies and the Crane URL, the YUM distributor body and repodata paths,
  the content-source file, package filename to unit type, path splitting
  for the rsync tests, and the unit removal criteria.

The modules follow the source files. `Results`, `Json`, `Strs`, `Seqs`,
`Urls`, `Versions` and `Http` are shared foundations:

- a Python exception becomes an `Err` of one `Error` datatype;
- a Python dict is an ordered list of entries, because insertion order is
  visible in what the helpers write;
- `urlsplit`, `urlunsplit` and `urljoin` follow the Python standard
  library on the URLs the modelled code builds; the inputs on which they
  differ are listed under "Left out";
- versions follow the release-segment part of PEP 440.

Network calls, shell probes, prompts, clocks and random identifiers are
parameters:

- a `server` function answers polls;
- a `succeeds` predicate answers shell probes;
- prompt answers come as `Option` values, where `None` means the default
  was taken;
- `uuid4()` values and the local host name are plain arguments.

## Model

| member | source | states |
|---|---|---|
| Config.ExtraKeys | pulp_smash/config.py:52-55 | no unexpected key is reported exactly when every key of the object is allowed ("additionalProperties": false) |
| Config.MissingKeys | pulp_smash/config.py:52-55 | no missing key is reported exactly when every required key is present |
| Config.ObjectErrors | pulp_smash/config.py:74-79 | an object schema reports nothing exactly when the value is an object, has only allowed keys and has every required key |
| Config.CheckErrors | pulp_smash/config.py:88-138 | a property check reports nothing exactly when the value satisfies its enum, type and range keywords |
| Config.PropErrors | pulp_smash/config.py:88-138 | a property that is present is checked, and an absent one reports nothing |
| Config.RoleErrors | pulp_smash/config.py:88-142 | one role's settings report nothing exactly when they conform to that role's schema |
| Config.RolePropsErrors | pulp_smash/config.py:83-143 | the per-role checks report nothing exactly when every role present conforms |
| Config.RoleOrderCovers | pulp_smash/config.py:83-87 | for an object of known roles, checking the roles in schema order is the same as checking every entry |
| Config.RolesConformSplit | pulp_smash/config.py:83-87 | a `roles` object conforms exactly when its keys are known roles, `shell` is present and every entry conforms |
| Config.RolesErrors | pulp_smash/config.py:83-143 | the `roles` checks report nothing exactly when the roles object conforms |
| Config.SystemErrors | pulp_smash/config.py:74-82 | a host reports nothing exactly when it is an object with only `hostname` and `roles`, both present and valid |
| Config.SystemsErrors | pulp_smash/config.py:67-71 | the item checks report nothing exactly when every item from the start index conforms |
| Config.PulpErrors | pulp_smash/config.py:57-66 | the `pulp` object reports nothing exactly when it has a two-item `auth` and a string `version`, and nothing else but a boolean `selinux enabled` |
| Config.SystemsArrayErrors | pulp_smash/config.py:67-71 | `systems` reports nothing exactly when it is an array of at least one conforming host |
| Config.SchemaErrors | pulp_smash/config.py:52-148 | the schema reports no violation exactly when the whole document conforms |
| Config.Messages | pulp_smash/config.py:191-209 | one message per violation, in order; each starts with "Failed to validate config" and ends with " because ", the rule that failed and "." |
| Config.MissingRolesSpec | pulp_smash/config.py:214-223 | the missing roles are sorted, are exactly the required roles absent from the hosts, and are empty exactly when every required role is present |
| Config.RequiredRolesAreSorted | pulp_smash/config.py:29-37 | the required role names in the order the model lists them are strictly sorted, as `sorted` would give them |
| Config.ValidateConfig | pulp_smash/config.py:176-223 | validation passes exactly when the schema holds and every required role is carried by some host; all schema violations are reported together, and the role check runs only on a conforming document and names the missing roles sorted and comma-joined |
| Config.ReadSystem | pulp_smash/config.py:402-404 | a host entry with `hostname` and `roles` becomes a host with those values |
| Config.ReadSystemListConforming | pulp_smash/config.py:402-404 | a list of well-formed host entries is read into the hosts they describe, in order |
| Config.FieldOr | pulp_smash/config.py:397-401 | `get(k, default)` gives the stored value when the key is present and the default otherwise |
| Config.Read | pulp_smash/config.py:380-405 | an empty settings document is read as auth admin/admin, version 1!0, no hosts and SELinux enabled |
| Config.ReadWellFormed | pulp_smash/config.py:380-405 | a document with auth, a parsable version and well-formed hosts is read into exactly those values, SELinux defaulting to enabled |
| Config.ReadConforming | pulp_smash/config.py:380-405 | a document that passes the schema and has a parsable version is read without error, keeping its auth, version and hosts in order |
| Config.GetSystems | pulp_smash/config.py:407-418 | an unknown role raises `ValueError`; otherwise the result is the subsequence of hosts carrying the role, holding each such host as often as the configuration does |
| Config.RoleService | pulp_smash/config.py:421-441 | `api` gives httpd, the celery roles give their underscored names, mongod and squid give themselves, `amqp broker` gives its service only when that is qpidd or rabbitmq, and other roles give nothing |
| Config.ServicesOf | pulp_smash/config.py:424-441 | a service is in the result exactly when one of the listed roles contributes it |
| Config.ServicesForRoles | pulp_smash/config.py:420-441 | the services of a host are exactly those its roles contribute, as a set |
| Config.ServicesTableFixed | pulp_smash/config.py:430-440 | each fixed service is present exactly when its role is |
| Config.RoleServiceFixed | pulp_smash/config.py:430-440 | a role other than `amqp broker` contributes only a service of the fixed table, never a broker service |
| Config.ServicesBroker | pulp_smash/config.py:426-429 | a broker service is present exactly when the `amqp broker` role names it |
| Config.ServicesKnown | pulp_smash/config.py:421-441 | no service outside the fixed table and the broker services ever appears |
| Config.ApiHost | pulp_smash/config.py:449-450 | the given host is used; otherwise the first host carrying `api`, which fails when there is none |
| Config.ApiSettings | pulp_smash/config.py:451-456 | the `api` settings are read only when the role is present and is a dict |
| Config.BaseUrlValue | pulp_smash/config.py:443-458 | the base URL unsplits the scheme and the hostname followed by ":port" only when a port is configured |
| Config.BaseUrlShape | pulp_smash/config.py:443-458 | for a plain host and an http(s) scheme the base URL is scheme://host[:port], it splits back into those parts, and its host name is the host's |
| Config.BaseUrlOrigin | pulp_smash/config.py:443-458 | for a non-empty host and scheme the base URL is scheme://host[:port] |
| Config.NetlocHostname | pulp_smash/config.py:452-457 | the host name read back from host[:port] is the host |
| Config.PyTuple | pulp_smash/config.py:488 | `tuple()` succeeds exactly when iterating does, and is the list of what iterating visits; a list is kept as it is |
| Config.RequestsKwargsOf | pulp_smash/config.py:485-491 | the request arguments carry the credentials under `auth`, never `port` or `scheme`, and every other `api` setting unchanged |
| Config.GetRequestsKwargs | pulp_smash/config.py:460-491 | the request arguments exist exactly when an `api` host with dict settings exists and the auth is a list, and are built from that host's settings |
| Cli.CheckReturncode | pulp_smash/cli.py:102-132 | the check fails exactly for a non-zero return code, with an error that carries the args, code, stdout and stderr |
| Cli.Handle | pulp_smash/cli.py:44-58 | `echo_handler` returns the process unchecked; `code_handler` returns the same process when the check passes and the check's error otherwise |
| Cli.GetHosts | pulp_smash/cli.py:199-202 | the hosts carrying the role, in configuration order, each as often as the configuration holds it, and no other host |
| Cli.GetHostsIsGetSystems | pulp_smash/config.py:407-418 | for a known role, the host lookup the client uses agrees with `get_systems` |
| Cli.DefaultHost | pulp_smash/cli.py:197-202 | the default host is the first "pulp cli" host before Pulp 3 and the first "shell" host from Pulp 3 on; with none, `IndexError` |
| Cli.NewClient | pulp_smash/cli.py:191-215 | a new client has nothing memoised, uses `code_handler` unless a handler is given, targets the given or default host, and `local=True` replaces the host with localhost over a local transport |
| Cli.ShellSetting | pulp_smash/cli.py:230-232 | a missing `shell` role reads as empty, and a present one must be a dict whose setting is returned |
| Cli.ChooseTransport | pulp_smash/cli.py:229-238 | a set `shell.transport` is used verbatim; otherwise "local" exactly when the hostname is the local fully qualified name, else "ssh" |
| Cli.Transport | pulp_smash/cli.py:226-238 | the transport is computed once and then served from memory |
| Cli.TransportMemo | pulp_smash/cli.py:229-238 | a second read gives the same transport and leaves the client unchanged, even when the local name has changed |
| Cli.InitMachine | pulp_smash/cli.py:240-271 | an unknown transport raises `NotImplementedError`; ssh gives an SSH machine for the host and the other transports a local one; kubectl records the pod listing with newlines removed; docker and podman record `shell.container`, "pulp" when it is not set, and fail exactly when the `shell` settings cannot be read |
| Cli.IsSuperuser | pulp_smash/cli.py:272-287 | the answer is memoised, and a recorded pod name forces it to true |
| Cli.ContainerPrefix | pulp_smash/cli.py:315-322 | kubectl prefixes `sudo kubectl exec <pod> --`, docker and podman prefix `<tool> exec <flag> <pod>`, and other transports prefix nothing |
| Cli.CommandLine | pulp_smash/cli.py:315-325 | the command is the prefixed args, with "sudo" in front exactly when sudo is asked for, the command does not already start with "sudo" and the client is not superuser; empty args raise `IndexError` |
| Cli.CommandLineKeepsArgs | pulp_smash/cli.py:315-325 | the caller's args stay, in order, at the end of the command |
| Cli.CommandLineNoDoubleSudo | pulp_smash/cli.py:324-325 | `run` never adds a second "sudo" |
| Cli.CommandLineKubectl | pulp_smash/cli.py:315-318 | a kubectl command is `sudo kubectl exec <pod> --` and the args, with no extra "sudo" |
| Cli.Prepare | pulp_smash/cli.py:307-325 | the superuser check runs, and is memoised, only when sudo is asked for and the command does not start with "sudo"; with a pod name, no "sudo" is added |
| Cli.Run | pulp_smash/cli.py:289-331 | `run` sets the machine up, rewrites the args, executes them and hands the process to the handler; with `code_handler` a returned process has code 0 |
| Cli.FirstProbe | pulp_smash/cli.py:369-373 | the first candidate whose probe succeeds wins, and nothing is found exactly when no probe succeeds |
| Cli.GetServiceManager | pulp_smash/cli.py:355-384 | a cached host is answered from the cache; otherwise the first successful probe wins and is cached under the hostname, and no success raises `NoKnownServiceManagerError` |
| Cli.ServiceManagerOrder | pulp_smash/cli.py:366-373 | systemd is chosen when systemctl is found, sysv when only `service` is found by `which` or at /sbin/service, and an error when neither is |
| Cli.ServiceManagerCached | pulp_smash/cli.py:361-364 | once known, a host's service manager is answered from the cache whatever the probes now say |
| Cli.GetPackageManager | pulp_smash/cli.py:842-870 | the cache is keyed by the base URL's hostname; on a miss "dnf" is tried before "yum" and the answer is cached |
| Cli.GetRegistryClient | pulp_smash/cli.py:1006-1028 | podman is preferred over docker, and neither raises `NoRegistryClientError` |
| Selectors.StatusSetsDisjoint | pulp_smash/selectors.py:18-33 | no status is both testable and untestable |
| Selectors.TprOf | pulp_smash/selectors.py:61-65 | the value found belongs to the first custom field with id 4, and nothing is found only when no field has that id |
| Selectors.TprAnywhere | pulp_smash/selectors.py:61-65 | the target platform release is found wherever the field with id 4 sits |
| Selectors.TprAbsent | pulp_smash/selectors.py:61-70 | with no field of id 4, nothing is found |
| Selectors.GetTpr | pulp_smash/selectors.py:52-70 | `_get_tpr` returns exactly the value of custom field 4 when there is one, passes on the error of a field without `id`, and raises `BugTPRMissingError`, naming the issue, when there is none |
| Selectors.ConvertTpr | pulp_smash/selectors.py:73-94 | the empty string is version 0, and any other string is parsed as a version |
| Selectors.BugIdOf | pulp_smash/selectors.py:110-114 | an id passes the integer check exactly when it is an int, or a bool, which Python counts as one |
| Selectors.BugOf | pulp_smash/selectors.py:99-134 | a bug is read exactly when `issue.status.name` is a string, the TPR field is found and is a string, and it converts to a version; the bug then holds that status name and the converted release |
| Selectors.GetBug | pulp_smash/selectors.py:97-135 | a non-integer id raises `TypeError` before any lookup; a cached id is answered from the cache; otherwise the bug is fetched, checked and cached |
| Selectors.GetBugCached | pulp_smash/selectors.py:119-124 | asking again for a cached bug gives the same answer whatever the tracker now says |
| Selectors.Verdict | pulp_smash/selectors.py:159-171 | an unknown status raises `BugStatusUnknownError`; otherwise the bug is fixed exactly when its status is testable and its release is no later than the version |
| Selectors.BugIsFixed | pulp_smash/selectors.py:138-171 | a connection error counts as fixed; other fetch errors propagate; otherwise the verdict decides |
| Selectors.UntestableNeverFixed | pulp_smash/selectors.py:168-171 | an untestable bug is never fixed, whatever the version |
| Selectors.FixedStaysFixed | pulp_smash/selectors.py:168-171 | a bug fixed for one version is fixed for every later one |
| Selectors.Require | pulp_smash/selectors.py:209-223 | `exc` is raised exactly when the configured version is older than `ver`; otherwise the test's own outcome is returned |
| Selectors.SkipIf | pulp_smash/selectors.py:269-279 | `exc` is raised exactly when `func(value) == result`; otherwise the test's own outcome is returned |
| PulpSmashCli.ConvertPulpVersion | pulp_smash/pulp_smash_cli.py:302-313 | a version is accepted exactly when it parses and 2 <= v < 4; an unparsable one raises `InvalidVersion` |
| PulpSmashCli.ConvertTaskTimeout | pulp_smash/pulp_smash_cli.py:279-289 | a timeout is accepted exactly when it is an integer from 1 to 1800; a non-integer raises `ValueError` |
| PulpSmashCli.TaskTimeoutRange | pulp_smash/pulp_smash_cli.py:279-289 | a number typed in is accepted exactly when it is in range, and is returned unchanged |
| PulpSmashCli.VerifySetting | pulp_smash/pulp_smash_cli.py:177-182 | `verify` is the certificate path when one is given, or true when the path is empty, exactly when the scheme is https and verification is confirmed; otherwise false |
| PulpSmashCli.EndpointRole | pulp_smash/pulp_smash_cli.py:166-209 | the keys are scheme, verify, port only when the port is not 0, then service, with the answered values |
| PulpSmashCli.EndpointRoleFacts | pulp_smash/pulp_smash_cli.py:166-209 | setting the keys one by one gives that key order and those values |
| PulpSmashCli.ApiRole | pulp_smash/pulp_smash_cli.py:166-209 | the default port is 0 and not stored before Pulp 3, and 24817 from Pulp 3 on; the default service is httpd before Pulp 3 and nginx from it |
| PulpSmashCli.ContentRole | pulp_smash/pulp_smash_cli.py:212-239 | the content role's default port is 24816 and its default service is "pulp_content_app" |
| PulpSmashCli.ShellRole | pulp_smash/pulp_smash_cli.py:242-261 | the shell role is exactly `{"transport": "local"}` when Pulp Smash is on the Pulp host and `{"transport": "ssh"}` otherwise |
| PulpSmashCli.V2RolesOf | pulp_smash/pulp_smash_cli.py:117-128 | a Pulp 2 host has the nine roles in order, the broker, api and shell settings filled in and every other role empty |
| PulpSmashCli.BrokerRole | pulp_smash/pulp_smash_cli.py:157-163 | the broker service is the answer, defaulting to qpidd |
| PulpSmashCli.V2Roles | pulp_smash/pulp_smash_cli.py:110-129 | the Pulp 2 roles are exactly the nine listed, in order |
| PulpSmashCli.V3RolesOf | pulp_smash/pulp_smash_cli.py:132-149 | a Pulp 3 host has api, pulp resource manager, pulp workers, redis and shell, then `content` only when one is given |
| PulpSmashCli.V3BaseRolesFacts | pulp_smash/pulp_smash_cli.py:135-144 | the roles every Pulp 3 host has are named in order, hold the api and shell settings, and have no `content` role |
| PulpSmashCli.V3Roles | pulp_smash/pulp_smash_cli.py:146-147 | the `content` role is added unless content is served by the API server, which by default it is not |
| PulpSmashCli.HostOf | pulp_smash/pulp_smash_cli.py:116-129 | a host object has exactly `hostname` and `roles`, with the given values |
| PulpSmashCli.HostProperties | pulp_smash/pulp_smash_cli.py:103-107 | the Pulp 2 roles are used below version 3 and the Pulp 3 roles from it |
| PulpSmashCli.V2RoleEntry | pulp_smash/pulp_smash_cli.py:117-128 | each Pulp 2 role is found by its name, is a known role and conforms to the settings schema when the port answer is a port number |
| PulpSmashCli.HostOfConforms | pulp_smash/config.py:74-82 | a host object conforms to the schema when its roles do |
| PulpSmashCli.V2RolesConform | pulp_smash/pulp_smash_cli.py:110-129 | the Pulp 2 roles the wizard writes conform to the settings schema when the port answer is a port number |
| PulpSmashCli.V2RolesOfConform | pulp_smash/pulp_smash_cli.py:117-128 | the nine Pulp 2 roles conform to the settings schema whenever the broker, API and shell settings do |
| PulpSmashCli.V2HostConforms | pulp_smash/pulp_smash_cli.py:110-129 | a Pulp 2 host the wizard writes conforms to the schema and carries every required role |
| PulpSmashCli.ApiRoleConforms | pulp_smash/pulp_smash_cli.py:166-209 | the `api` settings the wizard writes conform to the schema when the port answer is a port number |
| PulpSmashCli.ShellRoleTransport | pulp_smash/pulp_smash_cli.py:242-261 | the shell role makes the client use a local shell exactly when Pulp Smash runs on the Pulp host, whatever the local machine's name |
| Http.RaiseForStatus | pulp_smash/api.py:108 | a response raises `HTTPError` exactly when its status code is in the 4XX or 5XX range |
| Api.CheckCallReport | pulp_smash/api.py:53-62 | a call report passes exactly when its `error` is null; a non-null error raises `CallReportError`, a missing one `KeyError` |
| Api.CheckFields | pulp_smash/api.py:72-76 | a task passes the field loop exactly when every field is present and null, and a task report error names the first field that is set |
| Api.FirstSetShifted | pulp_smash/api.py:72-76 | the first set field after a null first field is the first set field of the whole list |
| Api.CheckTask | pulp_smash/api.py:65-76 | one task passes exactly when `error`, `exception` and `traceback` are null, and the error names the first of them, in that order, that is set |
| Api.FailingTaskShifted | pulp_smash/api.py:71-76 | after a clean first task, the first failing task of the rest is the first failing task of all |
| Api.CheckTasks | pulp_smash/api.py:65-76 | the tasks pass exactly when every task is clean, and otherwise the error is that of the first task that is not |
| Api.PollOne | pulp_smash/api.py:330-354 | a task times out exactly when every poll from the current one to the limit of 24 shows it running; a success is the body of the first poll that shows an end state |
| Api.PollTask | pulp_smash/api.py:317-354 | a `_href` that `urljoin` rejects (a truthy non-string) raises its error before any poll, and a failed first poll is the whole result; otherwise the task's own final body comes first, and every body yielded is in an end state |
| Api.PollChildren | pulp_smash/api.py:343-345 | the spawned tasks are polled in order, each yielding at least its own body, and every body yielded is in an end state |
| Api.PollTaskShape | pulp_smash/api.py:330-346 | polling a task succeeds exactly when its own poll, its `spawned_tasks` and the polls of those succeed, and yields its body followed by theirs |
| Api.PollChildrenOk | pulp_smash/api.py:343-345 | polling spawned tasks succeeds exactly when each task has an `_href` (of any type), lies within the depth bound and polls successfully |
| Api.PollChildrenConcat | pulp_smash/api.py:343-345 | polling two lists one after the other succeeds exactly when each does, and yields the first list's bodies before the second's |
| Api.PollChildrenConcatOk | pulp_smash/api.py:343-345 | polling two lists one after the other succeeds exactly when polling each succeeds |
| Api.PollChildrenConcatValue | pulp_smash/api.py:343-345 | when both lists poll, the bodies of the two together are those of the first, then those of the second |
| Api.PollChildrenCons | pulp_smash/api.py:343-345 | the first spawned task's tree is yielded before the rest's, and polling fails when the first task cannot be polled |
| Api.PollChildrenOne | pulp_smash/api.py:343-345 | polling a single spawned task is polling its `_href` |
| Api.PollChildrenSplit | pulp_smash/api.py:343-345 | a successful poll cut at any point is the poll of the part before it followed by the poll of the part after it |
| Api.PollChildrenFirst | pulp_smash/api.py:343-345 | a successful poll of spawned tasks yields the first task's tree, then the rest's |
| Api.PollChildrenAt | pulp_smash/api.py:343-345 | the tree of the i-th spawned task sits between the trees of the tasks before it and those after it |
| Api.PollTaskDepthFirst | pulp_smash/api.py:330-346 | the bodies are yielded depth first: the task's own body, then for each spawned task, in order, its own body followed by its descendants' |
| Api.EndedConcat | pulp_smash/api.py:343-345 | bodies that have all ended stay so when their lists are joined |
| Api.PollSpawnedTasks | pulp_smash/api.py:296-314 | a call report without iterable `spawned_tasks` raises; otherwise the bodies are exactly those of polling each spawned task in turn, each in an end state |
| Api.PollLeaf | pulp_smash/api.py:333-346 | a task whose first poll ends it with no spawned tasks yields exactly its final body, whatever JSON value its href is |
| Api.PollTimesOut | pulp_smash/api.py:333-351 | a task whose href `urljoin` accepts (a string or a falsy value) and that shows a running state on all 25 polls of the joined URL raises `TaskTimedOutError` naming `str(href)` |
| Api.Handle202 | pulp_smash/api.py:79-86 | a response that is not 202 passes untouched; a 202 passes exactly when its tasks poll, its call report is clean and its tasks are clean, and a call report error wins over a task error |
| Api.Handle | pulp_smash/api.py:89-121 | `echo_handler` returns the response; the others raise for 4XX and 5XX, pass exactly when the 202 handling passes, and return the response or its decoded body |
| Api.NewClient | pulp_smash/api.py:220-236 | the client's defaults are the configuration's request arguments with the base URL under `url`, the given arguments winning; the handler defaults to `safe_handler` |
| Api.RequestArgs | pulp_smash/api.py:275-293 | without a default `url` `KeyError` is raised; the default URL and the call's URL are joined as `urljoin` joins any two values (a falsy default gives the call's URL, a string default the joined string, a truthy non-string default an error); the call's own arguments win over both |
| Api.Request | pulp_smash/api.py:275-293 | the response that the assembled arguments get goes through the client's handler; no request is sent when the default URL is missing or cannot be joined with the call's URL |
| Api.BodyKwargs | pulp_smash/api.py:254-273 | `json` is forwarded exactly when it was passed, null included, and no other argument changes |
| Api.BodyArgs | pulp_smash/api.py:254-273 | an explicit `json` replaces the client's default payload, an omitted one keeps it, and no other argument differs from a plain request |
| Api.BodyRequest | pulp_smash/api.py:254-273 | `post`, `put` and `patch` send the plain request with `json` added only when it was passed |
| Pulp2Utils.DefaultPublishBody | pulp_smash/pulp2/utils.py:291-297 | without a `distributors` key, or with a number of distributors other than one, `ValueError` is raised; otherwise the body is `{"id": ...}` of the one distributor |
| Pulp2Utils.PublishRepo | pulp_smash/pulp2/utils.py:277-298 | a given body is posted as is, and an omitted or null one is replaced by the default, to `actions/publish/` under the repository's href through `safe_handler`; a falsy `_href` posts to `actions/publish/` itself and a truthy non-string one raises `TypeError`; the default body's error comes first |
| Pulp2Utils.PayloadSnoc | pulp_smash/pulp2/utils.py:548-556 | the bytes of the requests with one more request are those bytes followed by its chunk |
| Pulp2Utils.UploadChunks | pulp_smash/pulp2/utils.py:544-556 | the chunks together are the unit, each is put at its own byte offset, every chunk but the last holds 200000 bytes, and an empty unit sends no request |
| Pulp2Utils.ImportBody | pulp_smash/pulp2/utils.py:558-560 | the import body holds `import_params`, then an empty `unit_key` and the upload's id where `import_params` does not give them, and nothing else |
| Pulp2Utils.GetBroker | pulp_smash/pulp2/utils.py:228-254 | the broker is `qpidd` exactly when its executable exists, `rabbitmq` exactly when only that one exists, and `NoKnownBrokerError` is raised when neither does |
| Pulp2Utils.RequirePulp2 | pulp_smash/pulp2/utils.py:340-348 | the caller's exception is raised exactly when the version is below 2 or at least 3 |
| Pulp2Utils.UnitTypes | pulp_smash/pulp2/utils.py:257-274 | the unit types are exactly the `id`s of the listing's entries; the call succeeds exactly when the listing is iterable and every entry has a hashable `id`, and the first entry whose `id` is a list or dict raises `TypeError` (unhashable) |
| Pulp2Utils.RequireUnitTypes | pulp_smash/pulp2/utils.py:351-363 | the caller's exception is raised exactly when some required unit type is missing from the server's unit types |
| Pulp2Utils.FirstLine | pulp_smash/pulp2/utils.py:439 | the first line is the longest prefix without a line break, and an empty output has none (`IndexError`) |
| Pulp2Utils.LineHead | pulp_smash/pulp2/utils.py:439 | the text before the first line break is a prefix without a line break, followed by a line break or by nothing |
| Pulp2Utils.SquidVersion | pulp_smash/pulp2/utils.py:432-439 | the version is parsed from the first line, lower-cased, after as many characters as "squid cache: version " has, stripped; empty output raises `IndexError` |
| Pulp2Utils.LineHeadOfLine | pulp_smash/pulp2/utils.py:439 | a line without line breaks, followed by a line break or nothing, is the first line |
| Pulp2Utils.LowerBanner | pulp_smash/pulp2/utils.py:437-439 | Squid's banner lower-cases to the phrase the code strips, and a version's text is left unchanged |
| Pulp2Utils.SquidVersionOfBanner | pulp_smash/pulp2/utils.py:436-439 | a `Squid Cache: Version` banner reads back as the version it names, whatever lines follow |
| Pulp2Utils.SearchUnits | pulp_smash/pulp2/utils.py:442-461 | the criteria, `{}` when omitted or null, are posted under `criteria` to `search/units/` of the repository, through `json_handler` by default; a falsy `_href` posts to `search/units/` itself and a truthy non-string one raises `TypeError` |
| Pulp3Utils.RequirePulp3 | pulp_smash/pulp3/utils.py:18-32 | the caller's exception is raised exactly when the version is below 3 or at least 4 |
| Pulp3Utils.GetPlugins | pulp_smash/pulp3/utils.py:55-66 | the plugins are exactly the `component`s of the status's `versions` entries; the call succeeds exactly when every entry has a hashable `component`, a missing `versions` or `component` raises, and the first list or dict `component` raises `TypeError` (unhashable) |
| Pulp3Utils.RequirePulpPlugins | pulp_smash/pulp3/utils.py:35-52 | the caller's exception is raised exactly when some required plugin is not installed |
| Pulp3Utils.Sync | pulp_smash/pulp3/utils.py:69-83 | the body posted to `sync/` under the repository's href holds the remote's href under `remote`, the keyword arguments winning, and nothing else; a falsy repository href posts to `sync/` itself, a truthy non-string one raises `TypeError` |
| Pulp3Utils.Hrefs | pulp_smash/pulp3/utils.py:104 | the list sent for units is their `pulp_href`s, in order |
| Pulp3Utils.RemovedUnits | pulp_smash/pulp3/utils.py:105-109 | `["*"]` is sent as given, and any other list of units as their hrefs |
| Pulp3Utils.ModifyParams | pulp_smash/pulp3/utils.py:102-111 | `add_content_units`, `remove_content_units` and `base_version` are present exactly when their argument is truthy, hold the hrefs or the version, and no other key appears |
| Pulp3Utils.ModifyParamsFacts | pulp_smash/pulp3/utils.py:102-111 | setting the three keys in turn, each only when asked, leaves exactly the keys asked for with their values |
| Pulp3Utils.ModifyRepo | pulp_smash/pulp3/utils.py:86-113 | the parameters are posted to `modify/` under the repository's href; a falsy href posts to `modify/` itself, a truthy non-string one raises `TypeError` |
| Pulp3Utils.BuildUnitUrl | pulp_smash/pulp3/utils.py:116-129 | the unit URL is the content host's base URL, `pulp/content`, the distribution's base path and the unit path, joined with slashes |
| Pulp3Utils.UnitUrlSegments | pulp_smash/pulp3/utils.py:123-129 | split at slashes, the unit URL gives back the base URL's pieces, then `pulp`, `content`, the base path and the unit path |
| Pulp3Utils.PublishBody | pulp_smash/pulp3/utils.py:204-207 | the body names the repository when no version is given or the version is null, and the version otherwise, never both and never a null version |
| Pulp3Utils.PublicationHref | pulp_smash/pulp3/utils.py:221 | the publication read back is the first created resource of the last spawned task; no task raises `IndexError`, and otherwise the read succeeds exactly when the last task has `created_resources` with a first item |
| Pulp3Utils.Publish | pulp_smash/pulp3/utils.py:193-209 | the body is posted to `publish/` under the publisher's href through `json_handler`; a falsy publisher href posts to `publish/` itself, a truthy non-string one raises `TypeError` |
| Pulp3Utils.VersionToRead | pulp_smash/pulp3/utils.py:241 | a truthy version href is read, else the repository's latest version |
| Pulp3Utils.MapEntries | pulp_smash/pulp3/utils.py:291-294 | rewriting each entry keeps the keys and their order and replaces each value by what its field maps to |
| Pulp3Utils.SummaryField | pulp_smash/pulp3/utils.py:251 | the field is read exactly when the version has a `content_summary` holding a dict under the field, and is that dict; a field that is not a dict raises `AttributeError` for `items` |
| Pulp3Utils.GetContent | pulp_smash/pulp3/utils.py:224-261 | without a version there is no content; otherwise the content is read exactly when the summary field is and every entry has an `href`, and each content type, in order, maps to what its `href` lists |
| Pulp3Utils.GetContentSummary | pulp_smash/pulp3/utils.py:264-295 | without a version the summary is empty; otherwise it is read exactly when the summary field is a dict whose entries all have a `count`, and each content type, in order, maps to its `count`; a summary field that is not iterable, or a non-empty string, raises `TypeError` |
| Pulp3Utils.SummaryCounts | pulp_smash/pulp3/utils.py:290-295 | the `for key` loop succeeds only on a dict, exactly when every entry has a `count`, and keeps its keys in order with each value replaced by its `count`; a value that is not iterable or a non-empty string raises `TypeError` |
| Pulp3Utils.DeleteVersion | pulp_smash/pulp3/utils.py:355-370 | without a version to delete `ValueError` is raised; otherwise the version href is deleted through `json_handler`: a string as the path, a falsy non-null one as the empty path, which `Client.request` resolves to the base URL, and a truthy non-string one raises `TypeError` |
| Pulp3Utils.VersionNumber | pulp_smash/pulp3/utils.py:329 | a version's sort key is the number in the next-to-last segment of its href's path |
| Pulp3Utils.PathNumber | pulp_smash/pulp3/utils.py:329 | the number is present exactly when the path has a next-to-last segment that parses as an integer |
| Pulp3Utils.VersionNumberOfHref | pulp_smash/pulp3/utils.py:329 | a version href written as `<versions path>/<n>/` sorts as `n` |
| Pulp3Utils.PathNumberOfDigits | pulp_smash/pulp3/utils.py:329 | `<path>/<n>/` has `n` in its next-to-last segment |
| Pulp3Utils.GetVersions | pulp_smash/pulp3/utils.py:319-330 | the versions come back as a permutation of those listed, in ascending order of their number; a version without a number makes the first such error the result |
| Pulp3Utils.GenDistribution | pulp_smash/pulp3/utils.py:376-380 | the body holds the random base path and name, the keyword arguments winning, and nothing else |
| Pulp3Utils.GenRemote | pulp_smash/pulp3/utils.py:390-397 | the body holds the random name and the URL, the keyword arguments winning, and nothing else |
| Pulp3Utils.GenNamed | pulp_smash/pulp3/utils.py:383-404 | the body holds the random name, the keyword arguments winning, and nothing else |
| RpmUtils.GenDistributor | pulp_smash/pulp2/tests/rpm/api_v2/utils.py:32-43 | a YUM distributor with the given id, not published automatically, served over http and https, whose relative URL is the second random value followed by a slash |
| RpmUtils.RelativeUrl | pulp_smash/pulp2/tests/rpm/api_v2/utils.py:58 | the relative URL is read from the distributor's `config` as `urljoin` reads it: a string as itself, a falsy value (null included) as nothing, leaving `/pulp/repos/`; a missing one raises `KeyError` and a truthy non-string one `TypeError` |
| RpmUtils.RepoBase | pulp_smash/pulp2/tests/rpm/api_v2/utils.py:58-60 | the distributor's directory always ends in a slash |
| RpmUtils.PlainUnderRepos | pulp_smash/pulp2/tests/rpm/api_v2/utils.py:58 | `/pulp/repos/` followed by a plain relative path is a plain path |
| RpmUtils.RepoBaseOfPlain | pulp_smash/pulp2/tests/rpm/api_v2/utils.py:58-60 | the directory of a plain relative URL is `/pulp/repos/` followed by it, with a slash added only when it lacks one |
| RpmUtils.RepoBaseOfDirectory | pulp_smash/pulp2/tests/rpm/api_v2/utils.py:58-60 | a relative URL that ends in a slash gets no second one |
| RpmUtils.PlainWithSlash | pulp_smash/pulp2/tests/rpm/api_v2/utils.py:41 | a plain random value followed by a slash is a plain relative URL |
| RpmUtils.RepoBaseOfSlashed | pulp_smash/pulp2/tests/rpm/api_v2/utils.py:58-60 | the directory of `<uuid>/` is `/pulp/repos/<uuid>/` |
| RpmUtils.RepoBaseOfGenerated | pulp_smash/pulp2/tests/rpm/api_v2/utils.py:32-43 | a generated distributor publishes to `/pulp/repos/<uuid>/`, the slash not doubled |
| RpmUtils.UnderRepoBase | pulp_smash/pulp2/tests/rpm/api_v2/utils.py:61 | joining a plain relative path onto the directory appends it |
| RpmUtils.RepomdXmlPlain | pulp_smash/pulp2/tests/rpm/api_v2/utils.py:61 | `repodata/repomd.xml` is a plain relative path |
| RpmUtils.RepomdPath | pulp_smash/pulp2/tests/rpm/api_v2/utils.py:46-64 | `repomd.xml` is fetched from `repodata/repomd.xml` under the distributor's directory, which is `/pulp/repos/` for a null or empty relative URL; a missing relative URL raises |
| RpmUtils.Matching | pulp_smash/pulp2/tests/rpm/api_v2/utils.py:95 | the matching locations are those of the given type, in document order |
| RpmUtils.OneMatch | pulp_smash/pulp2/tests/rpm/api_v2/utils.py:95-101 | one match means exactly one location of that type in the document, and no match means none |
| RpmUtils.RepodataPath | pulp_smash/pulp2/tests/rpm/api_v2/utils.py:67-110 | `ValueError` is raised exactly when `repomd.xml` does not hold exactly one location of the type; otherwise its href is resolved against the distributor's directory, for any relative URL `urljoin` accepts, null included |
| RpmUtils.XmlBytes | pulp_smash/pulp2/tests/rpm/api_v2/utils.py:113-142 | the status is checked first; the body is gunzipped exactly when the request URL ends in `.gz`, else parsed as it is |
| RpmUtils.Basename | pulp_smash/pulp2/tests/rpm/api_v2/utils.py:369 | the file name has no slash and ends the href |
| RpmUtils.UnitHref | pulp_smash/pulp2/tests/rpm/api_v2/utils.py:366-370 | the lookup succeeds exactly when some href has the file name, and gives the last such href; otherwise `KeyError` |
| RpmUtils.UnitHrefNamesUnit | pulp_smash/pulp2/tests/rpm/api_v2/utils.py:369-370 | the href found is one of the hrefs and ends in the unit's file name |
| RpmUtils.LastNamed | pulp_smash/pulp2/tests/rpm/api_v2/utils.py:369-370 | the last href with a file name is one of the hrefs and has that name |
| RpmUtils.UnitGoneIsKeyError | pulp_smash/pulp2/tests/rpm/api_v2/utils.py:369-370 | when no href has the file name, the lookup raises `KeyError` |
| RpmUtils.UnitPath | pulp_smash/pulp2/tests/rpm/api_v2/utils.py:337-377 | the unit is fetched from its href resolved against the distributor's directory, for any relative URL `urljoin` accepts, null included; an unknown unit raises `KeyError` |
| RpmUtils.DistributorsCall | pulp_smash/pulp2/tests/rpm/api_v2/utils.py:388 | the distributors are read with a GET of `distributors/` under the repository's href; a falsy href reads `distributors/` itself, a truthy non-string one raises `TypeError` |
| RpmUtils.DistsByTypeId | pulp_smash/pulp2/tests/rpm/api_v2/utils.py:380-389 | the type ids mapped are exactly those of the distributors, each to the last distributor of that type; the call succeeds exactly when every distributor has a hashable type id, and otherwise raises what the first distributor without one raises: `KeyError` when missing, `TypeError` (unhashable) for a list or dict |
| RpmUtils.KeyedByTypeId | pulp_smash/pulp2/tests/rpm/api_v2/utils.py:389 | keying distributors by type id keeps exactly their type ids, each mapped to a distributor of that type |
| RpmUtils.Sudo | pulp_smash/pulp2/tests/rpm/api_v2/utils.py:411 | the prefix is empty exactly when the user is root, and `sudo` otherwise |
| RpmUtils.ManageRsync | pulp_smash/pulp2/tests/rpm/api_v2/utils.py:392-423 | nothing runs when the `semanage` probe fails; otherwise `semanage boolean --modify` runs with the probe's prefix, `--on` or `--off`, and `pulp_manage_rsync` |
| RpmUtils.ManageRsyncOnOff | pulp_smash/pulp2/tests/rpm/api_v2/utils.py:419-422 | turning the boolean on and off runs the same command except for the flag |
| DockerUtils.OverriddenFour | pulp_smash/tests/pulp2/docker/api_v2/utils.py:10-31 | four distinct defaults overridden by keyword arguments keep each default unless its key is given, take every given value, and hold no other key |
| DockerUtils.GenRepo | pulp_smash/tests/pulp2/docker/api_v2/utils.py:10-19 | a Docker repository body with the random id, an empty importer configuration, `docker_importer` and the `docker-repo` note, each replaced by a keyword argument of its key, and no other key |
| DockerUtils.GenDistributor | pulp_smash/tests/pulp2/docker/api_v2/utils.py:22-31 | a Docker web distributor body with the random id, an empty configuration and no automatic publishing, each replaced by a keyword argument of its key, and no other key |
| DockerUtils.SplitCraneParts | pulp_smash/tests/pulp2/docker/api_v2/utils.py:51-53 | the unsplit Crane URL splits back into its parts, a relative path rooted |
| DockerUtils.AdjustUrl | pulp_smash/tests/pulp2/docker/api_v2/utils.py:42-53 | the adjusted URL's scheme is `http`, its host is the old one with the port replaced by 5000, and its path, query and fragment are kept |
| DockerUtils.AdjustUrlIdempotent | pulp_smash/tests/pulp2/docker/api_v2/utils.py:51-53 | adjusting an adjusted URL changes nothing |
| DockerUtils.CraneClient | pulp_smash/tests/pulp2/docker/api_v2/utils.py:55-83 | the Crane client uses `json_handler`, sends an `accept: application/json` header, has the adjusted base URL, and takes every other request argument, `auth` and `verify` among them, from the configuration as a plain client does |
| DockerUtils.CraneKwargs | pulp_smash/tests/pulp2/docker/api_v2/utils.py:75-82 | replacing the URL of a client made with only a `headers` argument keeps those headers and every configured argument |
| DockerUtils.CreateRepoBody | pulp_smash/tests/pulp2/docker/api_v2/utils.py:107-114 | the repository body has the generated id, importer type and `docker-repo` note, the given importer configuration, and the given distributors, or exactly one generated distributor when they are omitted or null |
| ContentSources.HttpsUrl | pulp_smash/tests/pulp2/rpm/api_v2/test_content_sources.py:157-159 | the fixtures URL keeps its host, path, query and fragment and takes the scheme `https` |
| ContentSources.MissingKeys | pulp_smash/tests/pulp2/rpm/api_v2/test_content_sources.py:156-167 | the missing keys are exactly those of the list that the dict lacks |
| ContentSources.MissingAfterAdd | pulp_smash/tests/pulp2/rpm/api_v2/test_content_sources.py:156-167 | adding a key outside the list leaves the list's missing keys as they were |
| ContentSources.KeysTail | pulp_smash/tests/pulp2/rpm/api_v2/test_content_sources.py:156-167 | a dict with distinct keys is its first key followed by its tail's keys, which do not repeat it |
| ContentSources.AddDefaultsGet | pulp_smash/tests/pulp2/rpm/api_v2/test_content_sources.py:156-167 | after the defaults are added, a key the dict had keeps its value and a missing key takes its default |
| ContentSources.MissingKeysCons | pulp_smash/tests/pulp2/rpm/api_v2/test_content_sources.py:156-167 | the missing keys of a list are those of its head followed by those of its tail |
| ContentSources.AddDefaultsKeys | pulp_smash/tests/pulp2/rpm/api_v2/test_content_sources.py:156-167 | the added defaults follow the dict's own keys, in the defaults' order |
| ContentSources.Settings | pulp_smash/tests/pulp2/rpm/api_v2/test_content_sources.py:154-167 | the settings never hold `source_id`; a given setting keeps its value; a missing one among `base_url`, `enabled`, `name`, `paths`, `type` takes its default; given keys come first, in order |
| ContentSources.WrittenJoin | pulp_smash/tests/pulp2/rpm/api_v2/test_content_sources.py:168-172 | writing each line followed by a newline is joining the lines, and an empty last piece, with newlines |
| ContentSources.Body | pulp_smash/tests/pulp2/rpm/api_v2/test_content_sources.py:168-172 | the file starts with the `[source_id]` header line |
| ContentSources.BodyLines | pulp_smash/tests/pulp2/rpm/api_v2/test_content_sources.py:168-172 | the file splits at newlines into the header, one `key: value` line per setting in order, and an empty last piece |
| ContentSources.SourceId | pulp_smash/tests/pulp2/rpm/api_v2/test_content_sources.py:155 | the section name is the given `source_id`, else the random value |
| ContentSources.ContentSourceBody | pulp_smash/tests/pulp2/rpm/api_v2/test_content_sources.py:145-172 | the file's first line names the given `source_id` or the random one |
| Signatures.AfterDirectory | pulp_smash/tests/pulp2/rpm/api_v2/test_signatures_saved_for_packages.py:46 | after a directory prefix, the last segment is what follows it |
| Signatures.DropParamsLast | pulp_smash/tests/pulp2/rpm/api_v2/test_signatures_saved_for_packages.py:46 | dropping the parameters of the last segment cuts it at its first `;` |
| Signatures.PathFilename | pulp_smash/tests/pulp2/rpm/api_v2/test_signatures_saved_for_packages.py:46 | the filename is the path's last `/`-segment, cut at its first `;` when parameters are split off, and holds no `/` |
| Signatures.PkgFilename | pulp_smash/tests/pulp2/rpm/api_v2/test_signatures_saved_for_packages.py:44-46 | a package's filename is the last segment of its URL's path as `urlparse` reads it, with no `/`, and no `;` for schemes that take parameters |
| Signatures.FilenameOfPath | pulp_smash/tests/pulp2/rpm/api_v2/test_signatures_saved_for_packages.py:44-46 | a URL path ending in `/<name>` gives back `name` |
| Signatures.PkgUnitType | pulp_smash/tests/pulp2/rpm/api_v2/test_signatures_saved_for_packages.py:49-58 | a filename without `.` raises `IndexError`; otherwise the unit type is `srpm` when the next-to-last `.`-piece is `src`, else the last piece |
| Signatures.UnitTypeOfName | pulp_smash/tests/pulp2/rpm/api_v2/test_signatures_saved_for_packages.py:49-58 | `stem.mid.ext` has unit type `srpm` when `mid` is `src` and `ext` otherwise |
| Signatures.SearchName | pulp_smash/tests/pulp2/rpm/api_v2/test_signatures_saved_for_packages.py:82-84 | delta RPMs are searched under `drpms/`, other units by their bare filename |
| Signatures.FindCriteriaSelects | pulp_smash/tests/pulp2/rpm/api_v2/test_signatures_saved_for_packages.py:85-88 | the search criteria select exactly the units of the package's type with the searched filename |
| Signatures.FindUnitSearch | pulp_smash/tests/pulp2/rpm/api_v2/test_signatures_saved_for_packages.py:74-88 | the search posts those criteria to the repository's `search/units/` through `json_handler`, and a filename without `.` raises first |
| Rsync.RStripSlashes | pulp_smash/tests/pulp2/rpm/api_v2/test_rsync_distributor.py:85 | stripping trailing slashes leaves a prefix that does not end in `/`, followed only by slashes |
| Rsync.PathSplit | pulp_smash/tests/pulp2/rpm/api_v2/test_rsync_distributor.py:85 | the tail follows the last `/` and holds none; the head is empty exactly when the path has no `/`, and otherwise is the part before the last `/` stripped of trailing slashes, unless it is all slashes |
| Rsync.PathJoin | pulp_smash/tests/pulp2/rpm/api_v2/test_rsync_distributor.py:226 | an absolute piece replaces the directory; otherwise the piece follows the directory after exactly one `/` |
| Rsync.SplitPath | pulp_smash/tests/pulp2/rpm/api_v2/test_rsync_distributor.py:83-88 | a relative path splits into at least one piece, the last being its tail, none holding `/`; an absolute path recurses forever and raises `RecursionError` |
| Rsync.SlashesSplitIntoThemselves | pulp_smash/tests/pulp2/rpm/api_v2/test_rsync_distributor.py:85-88 | a path of slashes splits into itself and an empty tail, the fixpoint of the recursion |
| Rsync.SplitPathIsSplit | pulp_smash/tests/pulp2/rpm/api_v2/test_rsync_distributor.py:83-88 | a relative path with no `//` splits into its `/`-separated pieces |
| Rsync.Walk | pulp_smash/tests/pulp2/rpm/api_v2/test_rsync_distributor.py:219-226 | one directory is listed per segment |
| Rsync.WalkSteps | pulp_smash/tests/pulp2/rpm/api_v2/test_rsync_distributor.py:219-226 | the first directory listed is the root, each next one is the last joined with its segment, and the walk ends at the last directory joined with the last segment |
| Rsync.WalkJoins | pulp_smash/tests/pulp2/rpm/api_v2/test_rsync_distributor.py:223-226 | walking down plain pieces lands at the pieces joined by `/` under the root |
| Rsync.InnerPiecesNonEmpty | pulp_smash/tests/pulp2/rpm/api_v2/test_rsync_distributor.py:223 | among the pieces of a plain relative path only the last can be empty |
| Rsync.UnitsPath | pulp_smash/tests/pulp2/rpm/api_v2/test_rsync_distributor.py:220-222 | the units path is the configured `remote_units_path`, or `content/units` when none is configured |
| Rsync.UnitsWalk | pulp_smash/tests/pulp2/rpm/api_v2/test_rsync_distributor.py:199-226 | the walk succeeds exactly when `config.remote.root` is a string and the units path is read and splits; the directories listed and the one reached are the walk from that root down the pieces of the units path |
| Rsync.UnitsUnderRoot | pulp_smash/tests/pulp2/rpm/api_v2/test_rsync_distributor.py:219-226 | with a plain root and units path, the units are looked for at `<root>/<units path>` |
| Rsync.TwoPieceSplit | pulp_smash/tests/pulp2/rpm/api_v2/test_rsync_distributor.py:83-88 | `a/b` splits into `a` and `b` |
| Rsync.JoinPlain | pulp_smash/tests/pulp2/rpm/api_v2/test_rsync_distributor.py:226 | a plain segment joins a plain directory after one `/` |
| Rsync.TwoPieceWalk | pulp_smash/tests/pulp2/rpm/api_v2/test_rsync_distributor.py:223-226 | walking two pieces lists the root and `<root>/a` and ends at `<root>/a/b` |
| Rsync.DefaultUnitsSplit | pulp_smash/tests/pulp2/rpm/api_v2/test_rsync_distributor.py:221-223 | the default units path splits into `content` and `units` |
| Rsync.WalkOne | pulp_smash/tests/pulp2/rpm/api_v2/test_rsync_distributor.py:223-226 | one segment lists the directory and ends at the directory joined with it |
| Rsync.PyNumber | pulp_smash/tests/pulp2/rpm/api_v2/test_rsync_distributor.py:763-766 | `sum` adds integers as they are and booleans as 0 or 1, and nothing else |
| Rsync.StepCount | pulp_smash/tests/pulp2/rpm/api_v2/test_rsync_distributor.py:763-766 | a step counts its `num_processed` when its lower-cased type starts with `unit query step`, and 0 otherwise |
| Rsync.SumCountsErr | pulp_smash/tests/pulp2/rpm/api_v2/test_rsync_distributor.py:763-766 | the sum fails exactly when some step fails |
| Rsync.SumCountsErrPrefix | pulp_smash/tests/pulp2/rpm/api_v2/test_rsync_distributor.py:763-766 | once a prefix of the steps fails, the whole sum fails the same way |
| Rsync.NoQueryStepsSumZero | pulp_smash/tests/pulp2/rpm/api_v2/test_rsync_distributor.py:763-766 | steps with no unit query step add up to 0 |
| Rsync.SumCountsBound | pulp_smash/tests/pulp2/rpm/api_v2/test_rsync_distributor.py:763-766 | with non-negative counts the sum is at least each step's count |
| Rsync.SumCountsNonNegative | pulp_smash/tests/pulp2/rpm/api_v2/test_rsync_distributor.py:763-766 | non-negative counts add up to a non-negative sum |
| Rsync.GetNumProcessed | pulp_smash/tests/pulp2/rpm/api_v2/test_rsync_distributor.py:761-766 | the loop over `result.details` adds up exactly the step-by-step sum of the unit query steps' counts |
| Unassociate.IdKey | pulp_smash/tests/rpm/api_v2/test_unassociate.py:268-271 | the identifying field is `_id` exactly for language packs and RPM, SRPM and DRPM packages, and `id` otherwise |
| Unassociate.UnitId | pulp_smash/tests/rpm/api_v2/test_unassociate.py:260-272 | the identifier is the identifying field's name and its value in the unit's metadata; a unit without a type, metadata or that field raises |
| Unassociate.UnitsByType | pulp_smash/tests/rpm/api_v2/test_unassociate.py:275-277 | the units of the type, in their order, each as often as it occurs; any unit without a type makes it raise |
| Unassociate.RemoveUnitCall | pulp_smash/tests/rpm/api_v2/test_unassociate.py:280-291 | the criteria are posted to `actions/unassociate/` under the repository's href; a falsy href posts to `actions/unassociate/` itself, and a missing or truthy non-string one raises first |
| Unassociate.RemoveCriteriaSelects | pulp_smash/tests/rpm/api_v2/test_unassociate.py:287-290 | the removal criteria select exactly the units of the same type whose identifying field has the same value |
| Unassociate.RemoveUnitSelectsItself | pulp_smash/tests/rpm/api_v2/test_unassociate.py:280-291 | the criteria of a removal select the unit they were made for |
| Versions.CompareFlip | pulp_smash/selectors.py:214 | swapping the versions compared negates the comparison |
| Versions.CompareTrans | pulp_smash/selectors.py:168-171 | `<=` on versions is transitive, and strict when either step is |
| Versions.CompareTotal | pulp_smash/selectors.py:214 | every version equals itself and any two versions are ordered one way or the other |
| Versions.TrailingZero | pulp_smash/cli.py:197 | a trailing zero release segment does not change a version, so "3" equals "3.0" |
| Versions.ParseOrError | pulp_smash/selectors.py:94 | a version string is accepted exactly when it parses, and otherwise raises `InvalidVersion` naming it |
| Versions.ParseFormat | pulp_smash/config.py:400 | parsing the text of a version gives the version back |
| Versions.ParseDefaultVersion | pulp_smash/config.py:400 | the default version `1!0` parses as epoch 1, release 0 |
| Versions.Parse | pulp_smash/selectors.py:94 | a parsed version has at least one release segment, and a string without `!` has epoch 0 |
| Versions.Compare | pulp_smash/selectors.py:214 | the comparison is -1, 0 or 1, and versions of different epochs are never equal and are ordered by epoch |
| Urls.UrlSplit | pulp_smash/tests/pulp2/docker/api_v2/utils.py:51 | the split scheme is empty or a lower-case scheme, the netloc holds no `/`, `?` or `#`, the path no `?` or `#`, the query no `#` |
| Urls.Partition | pulp_smash/tests/pulp2/docker/api_v2/utils.py:52 | the separator is found exactly when it occurs, and the text is the part before its first occurrence, the separator and the rest |
| Urls.SplitUnsplit | pulp_smash/config.py:458 | splitting an unsplit absolute URL gives back its parts |
| Urls.SplitUnsplitRooted | pulp_smash/tests/pulp2/docker/api_v2/utils.py:53 | splitting an unsplit URL with a scheme and a host gives back its parts, a relative path rooted |
| Urls.SplitOrigin | pulp_smash/config.py:458 | `scheme://netloc` splits into that scheme and netloc |
| Urls.HostnameOfHostPort | pulp_smash/pulp2/utils.py:253 | the hostname of `host` and of `host:port` is the host |
| Urls.JoinUnderDirectory | pulp_smash/pulp2/utils.py:298 | joining a relative path onto a path ending in `/` appends it |
| Urls.JoinUnderOrigin | pulp_smash/api.py:288 | joining an absolute path onto `scheme://netloc` appends it |
| Urls.UrlJoin | pulp_smash/api.py:288 | an empty base gives the reference, an empty reference gives the base, and a reference with a scheme other than the base's, or a base whose scheme takes no relative references, gives the reference unchanged |
| Urls.JoinAbsolutePath | pulp_smash/api.py:288 | joining an absolute path onto an absolute URL keeps the base's scheme and netloc and takes the path, with no query or fragment |
| Urls.JoinJson | pulp_smash/api.py:288 | `urljoin` on any two JSON values: a falsy side gives the other side unchanged; two strings are joined; the call fails exactly when both sides are truthy and not both strings, with `TypeError` when one of them is a string |
| Urls.JoinArg | pulp_smash/pulp2/utils.py:298 | a value joined beside a non-empty string is read as that string, as nothing when it is falsy, and raises `TypeError` exactly when it is a truthy non-string |
| Urls.JoinArgAgrees | pulp_smash/api.py:334 | joining a value read through `JoinArg` with a non-empty string gives what `JoinJson` gives on the value itself, on either side, errors included |
| Urls.JoinArgAt | pulp_smash/pulp3/utils.py:83 | `repo["pulp_href"]`-style lookups joined onto a path: a missing key raises its `KeyError`, a string reads as itself, a falsy value as nothing |
| Urls.UrlUnsplit | pulp_smash/tests/pulp2/docker/api_v2/utils.py:53 | the URL starts with the scheme and ":" when there is a scheme, ends with "#" and the fragment when there is one, and a bare path is written as it is |
| Strs.Split | pulp_smash/tests/pulp2/rpm/api_v2/test_signatures_saved_for_packages.py:46 | a split is never empty and no piece holds the separator |
| Strs.JoinSplit | pulp_smash/pulp3/utils.py:129 | joining the pieces of a split with the separator gives back the text |
| Strs.SplitJoin | pulp_smash/pulp3/utils.py:129 | splitting a join gives back the pieces when none holds the separator |
| Strs.ParseIntOfIntToString | pulp_smash/pulp3/utils.py:329 | `int(str(i))` is `i` |
| Strs.ParseInt | pulp_smash/pulp_smash_cli.py:281 | `int()` of stripped text that is all digits is a non-negative number, a negative number was written with "-", and unsigned text that is not all digits raises; stripping skips Python's ASCII whitespace, the separators 0x1C to 0x1F included |
| Strs.ParseIntSeparators | pulp_smash/pulp_smash_cli.py:281 | `int()` and `str.strip()` skip the separator characters: `"\x1c5\x1f"` strips to "5" and reads as 5 |
| Seqs.Filter | pulp_smash/tests/rpm/api_v2/test_unassociate.py:277 | the filter keeps exactly the elements that pass |
| Seqs.FilterIsSubseq | pulp_smash/tests/rpm/api_v2/test_unassociate.py:277 | a filter keeps the order of the elements it keeps |
| Seqs.FilterCount | pulp_smash/tests/rpm/api_v2/test_unassociate.py:277 | a filter keeps every element that passes as often as it occurs |
| Seqs.SortBy | pulp_smash/pulp3/utils.py:329 | sorting keeps the elements and puts their keys in ascending order |
| Seqs.SortByChecked | pulp_smash/pulp3/utils.py:329 | sorting with a key that can raise gives the first error, or the same elements in ascending order of their keys |
| Seqs.KeyBy | pulp_smash/pulp2/tests/rpm/api_v2/utils.py:389 | a dict comprehension keys exactly the elements' keys, each to the last element with that key |
| Json.Get | pulp_smash/config.py:400 | a key is found exactly when the dict has it |
| Json.Set | pulp_smash/pulp3/utils.py:104 | setting an existing key keeps the key order, and a new key is appended |
| Json.SetGet | pulp_smash/pulp3/utils.py:104 | after `d[k] = v`, `k` maps to `v` and every other key is untouched |
| Json.Remove | pulp_smash/tests/pulp2/rpm/api_v2/test_content_sources.py:155 | after the pop the key is gone and every other key is untouched |
| Json.UpdateGet | pulp_smash/pulp3/utils.py:379 | after `d.update(e)` a key of `e` maps to its value in `e` and every other key keeps its value |
| Json.UpdateHasKey | pulp_smash/pulp3/utils.py:379 | after `d.update(e)` the keys are those of `d` and those of `e` |
| Json.PyIter | pulp_smash/pulp3/utils.py:66 | iterating visits a list's items, a dict's keys or a string's characters, and anything else is not iterable |
| Json.PyLen | pulp_smash/pulp2/utils.py:291 | `len` counts what iterating visits, and is defined for exactly the iterable values |
| Json.Subscript | pulp_smash/api.py:60 | `v[k]` succeeds exactly when `v` is a dict with the key, and a missing key raises `KeyError` |
| Json.Index | pulp_smash/pulp3/utils.py:221 | indexing a list within bounds gives the item, and past its end raises `IndexError` |
| Json.Pluck | pulp_smash/pulp3/utils.py:104 | the list comprehension succeeds exactly when every entry has the key |
| Json.Overridden | pulp_smash/tests/pulp2/docker/api_v2/utils.py:12-18 | an override wins over its default, every other default is kept, and no other key appears |
| Json.Collect | pulp_smash/pulp2/utils.py:274 | the set comprehension succeeds exactly when every entry has the key with a hashable (not list, not dict) value, and holds exactly their values; otherwise the first entry that fails raises, `TypeError` (unhashable) when its value is a list or dict |
| Json.Missing | pulp_smash/pulp2/utils.py:358 | the set difference holds exactly the required names not present |

Facts about the source that shape the model:

- `pulp_smash/config.py` does not check for duplicate host names, has
  only the top-level keys `pulp` and `systems`, and lets role settings
  carry extra keys; `Config.SchemaErrors` does the same.
- `pulp_smash/cli.py` calls `cfg.get_hosts`, which `pulp_smash/config.py`
  does not define; `Cli.GetHosts` models it as the plain filter of the
  hosts by role, and a lemma relates it to `Config.GetSystems`.
- `pulp_smash/api.py` reads `cfg.base_url`, which the configuration class
  does not define; the base URL is a parameter of `Api.Handle`, and the
  polling functions take the URL each task href is polled at.
- The wizard in `pulp_smash/pulp_smash_cli.py` writes Pulp 3 roles
  (`redis`, `content`) that the schema of `pulp_smash/config.py` rejects;
  each file is modelled as written, and only the Pulp 2 roles are proved
  to conform.

## Left out

- Network, shell and file I/O: requests, SSH and container processes,
  `socket.getfqdn`, `time.sleep`, reading and writing the settings file
  and its XDG search path, and the `_CONFIG` cache of `get_config`. Their
  results are parameters.
- Cli.IsSuperuser: `isRoot` is the answer of an `id -u` probe that
  succeeded; a failing probe, which makes `is_root` raise
  `CalledProcessError` through `code_handler` before the pod name is
  looked at, is not modelled.
- The `jsonschema` library: only the constraints of the settings schema
  are modelled, not the library's messages word for word; its `hostname`
  format check depends on the library version and is not modelled.
- JSON floating-point numbers: numbers are integers.
- PEP 440 pre-, post-, dev- and local-version parts, a leading `v` and
  surrounding whitespace: `Versions.Parse` rejects them, where
  `packaging` would accept the parts and normalise away the `v` and the
  whitespace.
- Urls.UrlJoin: the merged path keeps `.` and `..` segments, where Python
  removes them (section 5.2.4 of RFC 3986), and keeps empty inner
  segments, where Python drops them: `urljoin("http://h/x//y", "a")` is
  `http://h/x/a` in Python and `http://h/x//a` here. No path the modelled
  code joins has such segments.
- Urls.UrlSplit: leading C0 control characters and spaces are not
  stripped, tabs, carriage returns and line feeds are not removed, and an
  unbalanced `[` or `]` in the netloc does not raise `ValueError`, as
  Python's `urlsplit` does; the URLs the modelled code splits have none
  of these.
- Json.Get: a JSON object with a repeated key is read first-wins, where
  `json.load` keeps the last value; the settings file and the server
  bodies the model reads have distinct keys.
- `Strs.Lower` and `Strs.Strip` follow Python on ASCII only (for
  `Strs.Strip`, ASCII whitespace is what `str.isspace` accepts below 128,
  including the separators 0x1C to 0x1F); Unicode case mapping and
  non-ASCII whitespace are not modelled.
- `int()` of text with underscores between digits or non-ASCII digits is
  not modelled; `Strs.ParseInt` accepts surrounding ASCII whitespace, an
  optional sign and ASCII digits.
- XML parsing (`ElementTree`) and gzip decompression: a `repomd.xml` is the
  list of its `location` elements, and the decompressor is a parameter of
  `RpmUtils.XmlBytes`. A `location` element without an `href` is not
  modelled.
- The Content-Type check and warning of a 202 response
  (`_check_http_202_content_type`), and the warnings of `bug_is_fixed` on a
  connection error and of `publish` on several spawned tasks: warnings have
  no effect on results.
- `page_handler` and `task_handler`, which `pulp_smash/api.py` does not
  define: a page-handled GET is the `get` parameter of the Pulp 3 content
  readers.
- `get_artifact_paths`, `delete_orphans`, `download_content_unit`,
  `wget_download_on_host` and `download_content_unit_return_requests_response`
  of `pulp_smash/pulp3/utils.py`: they only perform I/O.
- `sync_repo`, `upload_import_erratum`, `reset_pulp`, `reset_squid`,
  `pulp_admin_login` and the issue guards of `pulp_smash/pulp2/utils.py`:
  they are sequences of requests and commands with nothing to decide.
- The wizard's file writing and its `general`/`hosts` document layout; the
  `ssh_user` prompt.
- The test-case classes (`BaseAPITestCase`, `DisableSELinuxMixin`,
  `TemporaryUserMixin`, the rsync test steps that list directories with
  `ls` and `find`), and the assertion in `_find_unit` that one unit is
  found: they check a live server.
- Values of a type the code never meets, where Python would go on with
  them: a non-string transport, container name, host name,
  `remote_units_path` or status name; a system's `roles` that are not a
  dict (`PulpSystem(**system)` stores any value); a bug's
  `custom_fields` that are not a list; an issue `id` that is not an
  integer. The model returns `NotModelled` for each.
- `str()` of non-empty lists and dicts, used in error messages and in the
  content-source file for non-string values: keyword argument values of
  `ContentSources.ContentSourceBody` are the text `str()` gives.
- `pulp_smash/compat.py` is not part of this model: the `urljoin` that
  `pulp_smash/api.py` imports from it is taken to be
  `urllib.parse.urljoin`.
- Api.FirstPoll: with an empty `base_url`, a falsy non-string href makes
  Python's `urljoin` return the href itself and `requests` reject it; the
  model polls the empty URL instead, and does not describe that case
  further.
- Pulp3Utils.GetContentSummary: a summary field that is an empty string
  or a list gives `NotModelled`. Python returns an empty string
  unchanged, which is not a dict, and indexes a list by its own items,
  which raises `TypeError` or `IndexError` depending on them.
- Api.PollTask: the recursion over spawned tasks is bounded by a `depth`
  parameter; a task tree deeper than it gives `NotModelled` instead of
  polling on.
- ContentSources.ContentSourceBody: its own contract states the header
  line; the setting lines are stated by `ContentSources.BodyLines` about
  `ContentSources.Body` and by `ContentSources.Settings`.
- RpmUtils.RepomdPath: the path is stated only for a plain relative URL,
  as `gen_distributor` makes them; a relative URL with a scheme, host,
  query or fragment is not described.
- Pulp3Utils.Publish and Pulp3Utils.DeleteVersion: they model the request
  that starts the task; polling its tasks is `Api.PollSpawnedTasks`.
- Seqs.SortBy: sort stability is not stated, only that the result is a
  sorted permutation.
- Rsync.SplitPath: Python raises `RecursionError` only once its stack is
  exhausted; the model returns that error at once for an absolute path.
