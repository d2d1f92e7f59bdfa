/** The command-line client of `pulp_smash/cli.py`: which host a `Client`
    targets, how it chooses and memoises a transport, how `run` rewrites the
    argument vector for container transports and `sudo`, the return-code
    check, and the detectors that probe a host for its service manager,
    package manager and registry client.

    Processes are never executed here: whatever running a command would
    tell (its exit status and output, the local FQDN, the pod listing, the
    result of `id -u`) is a parameter. */
module Cli {
  import opened Results
  import opened Json
  import opened Versions
  import opened Urls
  import Seqs
  import Strs
  import opened Config

  // ---------------------------------------------------------------------
  // Completed processes and response handlers.

  /** `CompletedProcess(args, returncode, stdout, stderr)` */
  datatype CompletedProcess = CompletedProcess(args: seq<string>, returncode: int, stdout: string, stderr: string)

  /** `CompletedProcess.check_returncode()`: fails exactly for a non-zero
      status, carrying the whole process in the error. */
  function CheckReturncode(p: CompletedProcess): (r: Result<()>)
    ensures r.Ok? <==> p.returncode == 0
    ensures r.Err? ==> r.error == CalledProcessError(p.args, p.returncode, p.stdout, p.stderr)
  {
    if p.returncode != 0 then Err(CalledProcessError(p.args, p.returncode, p.stdout, p.stderr))
    else Ok(())
  }

  /** The two response handlers `cli.py` provides. */
  datatype Handler = CodeHandler | EchoHandler

  /** `code_handler(p)` checks the status and returns the same process;
      `echo_handler(p)` returns it unchecked. */
  function Handle(h: Handler, p: CompletedProcess): (r: Result<CompletedProcess>)
    ensures h.EchoHandler? ==> r == Ok(p)
    ensures h.CodeHandler? ==> (r.Ok? <==> CheckReturncode(p).Ok?)
    ensures h.CodeHandler? && r.Ok? ==> r.value == p
    ensures h.CodeHandler? && r.Err? ==> r.error == CheckReturncode(p).error
  {
    match h
    case EchoHandler => Ok(p)
    case CodeHandler =>
      var _ :- CheckReturncode(p);
      Ok(p)
  }

  // ---------------------------------------------------------------------
  // The client and its lazily computed state.

  /** How commands are executed: on this machine (also for the container
      transports, which go through a local `kubectl`/`docker`/`podman`) or
      over SSH to a host. */
  datatype Machine = LocalMachine | SshMachine(hostname: string)

  /** `cli.Client`: the target host, the response handler and the four
      memoised attributes, each `None` until first computed. */
  datatype Client = Client(
    host: Host,
    handler: Handler,
    isRootCache: Option<bool>,
    machine: Option<Machine>,
    transport: Option<string>,
    podname: Option<string>)

  /** The transports `machine` knows how to set up. */
  const Transports: set<string> := {"local", "kubectl", "docker", "podman", "ssh"}

  /** The transports that run commands inside a pod or container. */
  const ContainerTransports: set<string> := {"kubectl", "docker", "podman"}

  /** What every reachable client satisfies: a machine is only set together
      with a transport, and a container transport has its pod name. */
  predicate Valid(c: Client) {
    && (c.machine.Some? ==> c.transport.Some?)
    && (c.machine.Some? && c.transport.value in ContainerTransports ==> c.podname.Some?)
  }

  /** The host `Client(cfg, local=True)` targets. */
  const LocalHost: Host := Host("localhost", [("shell", JObj([("transport", JStr("local"))]))])

  /** `cfg.get_hosts(role)`: the hosts carrying `role`, in document order. */
  function GetHosts(cfg: PulpSmashConfig, role: string): (r: seq<Host>)
    ensures forall i :: 0 <= i < |r| ==> HasKey(r[i].roles, role) && r[i] in cfg.systems
    ensures forall i :: 0 <= i < |cfg.systems| && HasKey(cfg.systems[i].roles, role) ==> cfg.systems[i] in r
    ensures Seqs.IsSubseq(r, cfg.systems)
    ensures forall h: Host :: HasKey(h.roles, role) ==> multiset(r)[h] == multiset(cfg.systems)[h]
  {
    var p := (h: Host) => HasKey(h.roles, role);
    Seqs.FilterIsSubseq(cfg.systems, p);
    forall h: Host | HasKey(h.roles, role) ensures multiset(Seqs.Filter(cfg.systems, p))[h] == multiset(cfg.systems)[h] {
      Seqs.FilterCount(cfg.systems, p, h);
    }
    Seqs.Filter(cfg.systems, p)
  }

  /** For a known role, `get_hosts` agrees with `get_systems`. */
  lemma GetHostsIsGetSystems(cfg: PulpSmashConfig, role: string)
    requires role in Roles
    ensures GetSystems(cfg, role) == Ok(GetHosts(cfg, role))
  {
  }

  /** The role of the default host: "pulp cli" before Pulp 3, "shell" from 3 on. */
  function DefaultRole(version: Version): string {
    if Lt(version, V(3)) then "pulp cli" else "shell"
  }

  /** `host` is the first host of `cfg` carrying `role`. */
  predicate IsFirstWithRole(cfg: PulpSmashConfig, role: string, host: Host) {
    exists k :: 0 <= k < |cfg.systems| && cfg.systems[k] == host && HasKey(host.roles, role)
      && forall j :: 0 <= j < k ==> !HasKey(cfg.systems[j].roles, role)
  }

  /** `cfg.get_hosts(role)[0]` for the default role of the configured version. */
  function DefaultHost(cfg: PulpSmashConfig): (r: Result<Host>)
    ensures r.Ok? <==> exists i :: 0 <= i < |cfg.systems| && HasKey(cfg.systems[i].roles, DefaultRole(cfg.version))
    ensures r.Ok? ==> IsFirstWithRole(cfg, DefaultRole(cfg.version), r.value)
    ensures r.Err? ==> r.error == IndexError
  {
    var role := DefaultRole(cfg.version);
    var p := (h: Host) => HasKey(h.roles, role);
    var hosts := GetHosts(cfg, role);
    Seqs.FilterHead(cfg.systems, p);
    if |hosts| == 0 then Err(IndexError)
    else
      var k := Seqs.FirstMatch(cfg.systems, p).value;
      assert hosts[0] == cfg.systems[k];
      Ok(hosts[0])
  }

  /** `Client(cfg, response_handler, pulp_host, local)`. The default host is
      looked up first, so a configuration without one fails even when
      `local` is set; `local` then replaces the host by localhost. */
  function NewClient(cfg: PulpSmashConfig, handler: Option<Handler>, pulpHost: Option<Host>, local: bool): (r: Result<Client>)
    ensures r.Ok? ==> Valid(r.value)
    ensures r.Ok? ==> r.value.isRootCache.None? && r.value.machine.None? && r.value.transport.None? && r.value.podname.None?
    ensures r.Ok? ==> r.value.handler == if handler.Some? then handler.value else CodeHandler
    ensures pulpHost.Some? ==> r.Ok? && r.value.host == if local then LocalHost else pulpHost.value
    ensures pulpHost.None? ==> (r.Ok? <==> DefaultHost(cfg).Ok?)
    ensures pulpHost.None? && r.Ok? ==> r.value.host == if local then LocalHost else DefaultHost(cfg).value
    ensures r.Err? ==> r.error == IndexError
  {
    var host :- if pulpHost.Some? then Ok(pulpHost.value) else DefaultHost(cfg);
    Ok(Client(if local then LocalHost else host, if handler.Some? then handler.value else CodeHandler,
      None, None, None, None))
  }

  /** `pulp_host.roles.get("shell", {}).get(key)`: a missing `shell` role
      reads as an empty dict, a `shell` value that is not a dict fails. */
  function ShellSetting(host: Host, key: string): (r: Result<Option<Json>>)
    ensures !HasKey(host.roles, "shell") ==> r == Ok(None)
    ensures HasKey(host.roles, "shell") ==> (r.Ok? <==> Get(host.roles, "shell").value.JObj?)
    ensures r.Ok? && HasKey(host.roles, "shell") ==> r.value == Get(Get(host.roles, "shell").value.fields, key)
  {
    match Get(host.roles, "shell")
    case None => Ok(None)
    case Some(shell) => if shell.JObj? then Ok(Get(shell.fields, key)) else Err(AttributeError("'get'"))
  }

  /** The transport of a host: its `shell.transport` setting verbatim when
      set, otherwise "local" exactly when its hostname is this machine's
      fully qualified name, and "ssh" otherwise. */
  function ChooseTransport(host: Host, fqdn: string): (r: Result<string>)
    ensures forall s :: ShellSetting(host, "transport") == Ok(Some(JStr(s))) ==> r == Ok(s)
    ensures ShellSetting(host, "transport") == Ok(None) || ShellSetting(host, "transport") == Ok(Some(JNull)) ==>
      r == Ok(if host.hostname == fqdn then "local" else "ssh")
    ensures ShellSetting(host, "transport").Err? ==> r.Err?
  {
    var setting :- ShellSetting(host, "transport");
    match setting
    case None => Ok(if host.hostname == fqdn then "local" else "ssh")
    case Some(JNull) => Ok(if host.hostname == fqdn then "local" else "ssh")
    case Some(JStr(s)) => Ok(s)
    case Some(_) => Err(NotModelled("a transport that is not a string"))
  }

  /** `Client.transport`: computed on first use, then served from memory. */
  function Transport(c: Client, fqdn: string): (r: Result<(Client, string)>)
    ensures c.transport.Some? ==> r == Ok((c, c.transport.value))
    ensures c.transport.None? ==> (r.Ok? <==> ChooseTransport(c.host, fqdn).Ok?)
    ensures c.transport.None? && r.Ok? ==>
      r.value.1 == ChooseTransport(c.host, fqdn).value && r.value.0 == c.(transport := Some(r.value.1))
  {
    if c.transport.Some? then Ok((c, c.transport.value))
    else
      var t :- ChooseTransport(c.host, fqdn);
      Ok((c.(transport := Some(t)), t))
  }

  /** Reading the transport again gives the same value and leaves the
      client as it is, whatever the local name has become meanwhile. */
  lemma TransportMemo(c: Client, fqdn: string, laterFqdn: string)
    requires Transport(c, fqdn).Ok?
    ensures var (c1, t) := Transport(c, fqdn).value;
      Transport(c1, laterFqdn) == Ok((c1, t))
  {
  }

  /** `Client.machine`: set up on first use. A container transport also
      records the pod name: the pod listing with newlines removed for
      kubectl, the `shell.container` setting (default "pulp") for docker and
      podman. An unknown transport raises `NotImplementedError`. */
  function InitMachine(c: Client, fqdn: string, podListing: string): (r: Result<Client>)
    requires Valid(c)
    ensures r.Ok? ==> Valid(r.value) && r.value.machine.Some?
    ensures c.machine.Some? ==> r == Ok(c)
    ensures c.machine.None? && Transport(c, fqdn).Ok? ==>
      (r.Err? && r.error.NotImplementedError? <==> Transport(c, fqdn).value.1 !in Transports)
    ensures c.machine.None? && r.Ok? ==>
      Transport(c, fqdn).Ok? && r.value.transport == Some(Transport(c, fqdn).value.1)
      && r.value.machine.value == (if r.value.transport.value == "ssh" then SshMachine(c.host.hostname) else LocalMachine)
    ensures c.machine.None? && r.Ok? && r.value.transport == Some("kubectl") ==>
      r.value.podname == Some(Strs.RemoveChar(podListing, '\n'))
    ensures c.machine.None? && Transport(c, fqdn).Ok? && Transport(c, fqdn).value.1 in ["docker", "podman"] ==>
      (r.Ok? <==>
         ShellSetting(c.host, "container").Ok?
         && (ShellSetting(c.host, "container").value.None? || ShellSetting(c.host, "container").value.value.JStr?))
    ensures c.machine.None? && Transport(c, fqdn).Ok? && Transport(c, fqdn).value.1 in ["docker", "podman"] ==>
      (ShellSetting(c.host, "container") == Ok(None) ==> r.Ok? && r.value.podname == Some("pulp"))
      && (forall name :: ShellSetting(c.host, "container") == Ok(Some(JStr(name))) ==>
            r.Ok? && r.value.podname == Some(name))
  {
    if c.machine.Some? then Ok(c)
    else
      var (c1, t) :- Transport(c, fqdn);
      if t == "local" then Ok(c1.(machine := Some(LocalMachine)))
      else if t == "kubectl" then
        Ok(c1.(machine := Some(LocalMachine), podname := Some(Strs.RemoveChar(podListing, '\n'))))
      else if t == "docker" || t == "podman" then
        var container :- ShellSetting(c1.host, "container");
        match container
        case None => Ok(c1.(machine := Some(LocalMachine), podname := Some("pulp")))
        case Some(JStr(name)) => Ok(c1.(machine := Some(LocalMachine), podname := Some(name)))
        case Some(_) => Err(NotModelled("a container name that is not a string"))
      else if t == "ssh" then Ok(c1.(machine := Some(SshMachine(c1.host.hostname))))
      else Err(NotImplementedError("Transport (" + t + ") is not implemented."))
  }

  /** `if self._podname:`: a recorded, non-empty pod name. */
  predicate HasPod(c: Client) {
    c.podname.Some? && c.podname.value != ""
  }

  /** `Client.is_superuser`: on first use the result of `id -u` (`isRoot`),
      forced to true when a pod name is recorded; then served from memory. */
  function IsSuperuser(c: Client, isRoot: bool): (r: (Client, bool))
    ensures c.isRootCache.Some? ==> r == (c, c.isRootCache.value)
    ensures c.isRootCache.None? ==> r.1 == (isRoot || HasPod(c))
    ensures r.0 == c.(isRootCache := Some(r.1))
  {
    if c.isRootCache.Some? then (c, c.isRootCache.value)
    else
      var v := if HasPod(c) then true else isRoot;
      (c.(isRootCache := Some(v)), v)
  }

  // ---------------------------------------------------------------------
  // Argument rewriting in `run`.

  /** The words a container transport puts in front of the command. */
  function ContainerPrefix(transport: string, podname: string): (r: seq<string>)
    ensures transport !in ContainerTransports ==> r == []
    ensures transport == "kubectl" ==> |r| == 5 && r[0] == "sudo" && r[3] == podname
    ensures transport in {"docker", "podman"} ==> |r| == 4 && r[0] == transport && r[3] == podname
  {
    if transport == "kubectl" then ["sudo", "kubectl", "exec", podname, "--"]
    else if transport == "docker" then ["docker", "exec", "-i", podname]
    else if transport == "podman" then ["podman", "exec", "-it", podname]
    else []
  }

  /** The command `run` hands to the machine, given the transport, the pod
      name, the caller's words, the `sudo` flag and whether the client is
      superuser. Indexing `args[0]` fails on an empty vector. */
  function CommandLine(transport: string, podname: string, args: seq<string>, sudo: bool, superuser: bool): (r: Result<seq<string>>)
    ensures var full := ContainerPrefix(transport, podname) + args;
      && (r.Err? <==> |full| == 0)
      && (r.Err? ==> r.error == IndexError)
      && (r.Ok? ==> r.value == full || r.value == ["sudo"] + full)
      && (r.Ok? ==> (r.value == ["sudo"] + full <==> sudo && full[0] != "sudo" && !superuser))
  {
    var full := ContainerPrefix(transport, podname) + args;
    if |full| == 0 then Err(IndexError)
    else if sudo && full[0] != "sudo" && !superuser then Ok(["sudo"] + full)
    else Ok(full)
  }

  /** `run` keeps the caller's words, in order, at the end of the command. */
  lemma CommandLineKeepsArgs(transport: string, podname: string, args: seq<string>, sudo: bool, superuser: bool)
    requires CommandLine(transport, podname, args, sudo, superuser).Ok?
    ensures var cmd := CommandLine(transport, podname, args, sudo, superuser).value;
      |args| <= |cmd| && cmd[|cmd| - |args|..] == args
  {
    var cmd := CommandLine(transport, podname, args, sudo, superuser).value;
    var full := ContainerPrefix(transport, podname) + args;
    assert full[|full| - |args|..] == args;
    if cmd != full {
      assert cmd[|cmd| - |args|..] == full[|full| - |args|..];
    }
  }

  /** `sudo` is never doubled: the command starts with two "sudo" words only
      when the words it would run anyway already did. */
  lemma CommandLineNoDoubleSudo(transport: string, podname: string, args: seq<string>, sudo: bool, superuser: bool)
    requires CommandLine(transport, podname, args, sudo, superuser).Ok?
    ensures var cmd := CommandLine(transport, podname, args, sudo, superuser).value;
      |cmd| >= 2 && cmd[0] == "sudo" && cmd[1] == "sudo" ==> cmd == ContainerPrefix(transport, podname) + args
  {
  }

  /** A kubectl command already runs under sudo, so no second one is added. */
  lemma CommandLineKubectl(podname: string, args: seq<string>, sudo: bool, superuser: bool)
    ensures CommandLine("kubectl", podname, args, sudo, superuser) == Ok(["sudo", "kubectl", "exec", podname, "--"] + args)
  {
  }

  /** The transport and pod name of a client whose machine is set up. */
  function PodOf(c: Client): string
    requires Valid(c) && c.machine.Some?
  {
    if c.transport.value in ContainerTransports then c.podname.value else ""
  }

  /** The argument rewriting of `run` on a client whose machine is set up:
      the command to execute and the client after the superuser check,
      which is made (and memoised) only when `sudo` is asked for and the
      command does not already start with "sudo". */
  function Prepare(c: Client, args: seq<string>, sudo: bool, isRoot: bool): (r: Result<(Client, seq<string>)>)
    requires Valid(c) && c.machine.Some?
    ensures var full := ContainerPrefix(c.transport.value, PodOf(c)) + args;
      r.Err? <==> |full| == 0
    ensures r.Ok? ==> Valid(r.value.0) && r.value.0.machine == c.machine
    ensures r.Ok? ==> var full := ContainerPrefix(c.transport.value, PodOf(c)) + args;
      var asked := sudo && full[0] != "sudo";
      && r.value.0 == (if asked then IsSuperuser(c, isRoot).0 else c)
      && r.value.1 == CommandLine(c.transport.value, PodOf(c), args, sudo, asked && IsSuperuser(c, isRoot).1).value
    ensures r.Ok? && HasPod(c) && c.isRootCache != Some(false) ==> r.value.1 == ContainerPrefix(c.transport.value, PodOf(c)) + args
  {
    var t := c.transport.value;
    var pod := PodOf(c);
    var full := ContainerPrefix(t, pod) + args;
    if |full| == 0 then Err(IndexError)
    else
      var asked := sudo && full[0] != "sudo";
      var (c1, superuser) := if asked then IsSuperuser(c, isRoot) else (c, false);
      var cmd := CommandLine(t, pod, args, sudo, superuser).value;
      Ok((c1, cmd))
  }

  /** `Client.run(args, sudo)`: sets the machine up if needed, rewrites the
      arguments, executes them through `exec` and hands the process to the
      response handler. */
  function Run(c: Client, args: seq<string>, sudo: bool, fqdn: string, podListing: string, isRoot: bool,
               exec: seq<string> -> (int, string, string)): (r: Result<(Client, CompletedProcess)>)
    requires Valid(c)
    ensures r.Ok? ==>
      && InitMachine(c, fqdn, podListing).Ok?
      && Prepare(InitMachine(c, fqdn, podListing).value, args, sudo, isRoot).Ok?
      && r.value.0 == Prepare(InitMachine(c, fqdn, podListing).value, args, sudo, isRoot).value.0
      && r.value.1.args == Prepare(InitMachine(c, fqdn, podListing).value, args, sudo, isRoot).value.1
    ensures r.Ok? ==> Valid(r.value.0) && r.value.0.machine.Some?
    ensures r.Ok? ==> var cmd := r.value.1.args; |args| <= |cmd| && cmd[|cmd| - |args|..] == args
    ensures r.Ok? && c.handler.CodeHandler? ==> r.value.1.returncode == 0
    ensures r.Ok? && c.handler.EchoHandler? ==> (r.value.1.returncode, r.value.1.stdout, r.value.1.stderr) == exec(r.value.1.args)
  {
    var c1 :- InitMachine(c, fqdn, podListing);
    var (c2, cmd) :- Prepare(c1, args, sudo, isRoot);
    var full := ContainerPrefix(c1.transport.value, PodOf(c1)) + args;
    CommandLineKeepsArgs(c1.transport.value, PodOf(c1), args, sudo, sudo && full[0] != "sudo" && IsSuperuser(c1, isRoot).1);
    var (code, out, err) := exec(cmd);
    var p :- Handle(c.handler, CompletedProcess(cmd, code, out, err));
    Ok((c2, p))
  }

  // ---------------------------------------------------------------------
  // Detectors: the first probe that succeeds wins.

  /** The first candidate whose command succeeds, in the given order. */
  function FirstProbe(candidates: seq<(seq<string>, string)>, succeeds: seq<string> -> bool): (r: Option<string>)
    ensures r.Some? <==> exists i :: 0 <= i < |candidates| && succeeds(candidates[i].0)
    ensures r.Some? ==>
      exists i :: (0 <= i < |candidates| && succeeds(candidates[i].0) && r.value == candidates[i].1
        && forall j :: 0 <= j < i ==> !succeeds(candidates[j].0))
  {
    var p := (cand: (seq<string>, string)) => succeeds(cand.0);
    match Seqs.FirstMatch(candidates, p)
    case None => None
    case Some(i) => Some(candidates[i].1)
  }

  const ServiceProbes: seq<(seq<string>, string)> :=
    [(["which", "systemctl"], "systemd"), (["which", "service"], "sysv"), (["test", "-x", "/sbin/service"], "sysv")]

  /** `BaseServiceManager._get_service_manager`: the cached answer for the
      host, else the first successful probe, which is then cached under the
      hostname. `succeeds(cmd)` tells whether `cmd` exits with status 0. */
  function GetServiceManager(cache: map<string, string>, host: Host, succeeds: seq<string> -> bool)
    : (r: Result<(map<string, string>, string)>)
    ensures host.hostname in cache ==> r == Ok((cache, cache[host.hostname]))
    ensures host.hostname !in cache ==> (r.Ok? <==> FirstProbe(ServiceProbes, succeeds).Some?)
    ensures host.hostname !in cache && r.Ok? ==>
      r.value.1 == FirstProbe(ServiceProbes, succeeds).value && r.value.0 == cache[host.hostname := r.value.1]
    ensures r.Err? ==> r.error == NoKnownServiceManagerError(host.hostname)
  {
    if host.hostname in cache then Ok((cache, cache[host.hostname]))
    else
      match FirstProbe(ServiceProbes, succeeds)
      case Some(m) => Ok((cache[host.hostname := m], m))
      case None => Err(NoKnownServiceManagerError(host.hostname))
  }

  /** systemd when `systemctl` is found; sysv when only `service` is (by
      `which` or at /sbin/service); an error when neither is. */
  lemma ServiceManagerOrder(host: Host, succeeds: seq<string> -> bool)
    ensures var r := GetServiceManager(map[], host, succeeds);
      && (succeeds(["which", "systemctl"]) ==> r.Ok? && r.value.1 == "systemd")
      && ((!succeeds(["which", "systemctl"]) && (succeeds(["which", "service"]) || succeeds(["test", "-x", "/sbin/service"])))
          ==> r.Ok? && r.value.1 == "sysv")
      && ((!succeeds(["which", "systemctl"]) && !succeeds(["which", "service"]) && !succeeds(["test", "-x", "/sbin/service"]))
          ==> r.Err?)
  {
    var r := FirstProbe(ServiceProbes, succeeds);
    if succeeds(["which", "systemctl"]) {
      assert succeeds(ServiceProbes[0].0);
      var i :| 0 <= i < |ServiceProbes| && succeeds(ServiceProbes[i].0) && r.value == ServiceProbes[i].1
        && forall j :: 0 <= j < i ==> !succeeds(ServiceProbes[j].0);
      assert i == 0;
    } else if succeeds(["which", "service"]) || succeeds(["test", "-x", "/sbin/service"]) {
      assert succeeds(ServiceProbes[1].0) || succeeds(ServiceProbes[2].0);
      var i :| 0 <= i < |ServiceProbes| && succeeds(ServiceProbes[i].0) && r.value == ServiceProbes[i].1;
      assert i != 0;
    } else {
      assert forall i :: 0 <= i < |ServiceProbes| ==> !succeeds(ServiceProbes[i].0);
    }
  }

  /** Once a host's service manager is known, it is answered from the cache
      whatever the probes would now say. */
  lemma ServiceManagerCached(cache: map<string, string>, host: Host, succeeds: seq<string> -> bool, later: seq<string> -> bool)
    requires GetServiceManager(cache, host, succeeds).Ok?
    ensures var (cache1, m) := GetServiceManager(cache, host, succeeds).value;
      GetServiceManager(cache1, host, later) == Ok((cache1, m))
  {
  }

  const PackageProbes: seq<(seq<string>, string)> := [(["which", "dnf"], "dnf"), (["which", "yum"], "yum")]

  /** `PackageManager._get_package_manager`: keyed by the host name of the
      base URL. On a cache miss a client for the default host is built
      (which fails without one), and "dnf" is tried before "yum". */
  function GetPackageManager(cache: map<Option<string>, string>, cfg: PulpSmashConfig, succeeds: seq<string> -> bool)
    : (r: Result<(map<Option<string>, string>, string)>)
    ensures GetBaseUrl(cfg, None).Err? ==> r.Err?
    ensures GetBaseUrl(cfg, None).Ok? ==> var key := Hostname(UrlSplit(GetBaseUrl(cfg, None).value).netloc);
      && (key in cache ==> r == Ok((cache, cache[key])))
      && (key !in cache && NewClient(cfg, Some(EchoHandler), None, false).Ok? ==>
            (r.Ok? <==> FirstProbe(PackageProbes, succeeds).Some?)
            && (r.Ok? ==> r.value == (cache[key := r.value.1], FirstProbe(PackageProbes, succeeds).value)))
      && ((key !in cache && succeeds(["which", "dnf"]) && NewClient(cfg, Some(EchoHandler), None, false).Ok?)
          ==> r.Ok? && r.value.1 == "dnf")
  {
    var url :- GetBaseUrl(cfg, None);
    var key := Hostname(UrlSplit(url).netloc);
    if key in cache then Ok((cache, cache[key]))
    else
      var _ :- NewClient(cfg, Some(EchoHandler), None, false);
      assert succeeds(["which", "dnf"]) ==> succeeds(PackageProbes[0].0);
      match FirstProbe(PackageProbes, succeeds)
      case Some(m) =>
        assert succeeds(["which", "dnf"]) ==> m == "dnf" by {
          if succeeds(["which", "dnf"]) {
            var i :| 0 <= i < |PackageProbes| && succeeds(PackageProbes[i].0) && m == PackageProbes[i].1
              && forall j :: 0 <= j < i ==> !succeeds(PackageProbes[j].0);
            assert i == 0;
          }
        }
        Ok((cache[key := m], m))
      case None => Err(NoKnownPackageManagerError(if key.Some? then key.value else "None"))
  }

  const RegistryProbes: seq<(seq<string>, string)> := [(["which", "podman"], "podman"), (["which", "docker"], "docker")]

  /** `RegistryClient._get_registry_client`: "podman" before "docker", no cache. */
  function GetRegistryClient(host: Host, succeeds: seq<string> -> bool): (r: Result<string>)
    ensures r.Ok? <==> succeeds(["which", "podman"]) || succeeds(["which", "docker"])
    ensures succeeds(["which", "podman"]) ==> r == Ok("podman")
    ensures !succeeds(["which", "podman"]) && succeeds(["which", "docker"]) ==> r == Ok("docker")
    ensures r.Err? ==> r.error == NoRegistryClientError(host.hostname)
  {
    assert succeeds(["which", "podman"]) <==> succeeds(RegistryProbes[0].0);
    assert succeeds(["which", "docker"]) <==> succeeds(RegistryProbes[1].0);
    match FirstProbe(RegistryProbes, succeeds)
    case Some(m) =>
      var i :| 0 <= i < |RegistryProbes| && succeeds(RegistryProbes[i].0) && m == RegistryProbes[i].1
        && forall j :: 0 <= j < i ==> !succeeds(RegistryProbes[j].0);
      Ok(m)
    case None => Err(NoRegistryClientError(host.hostname))
  }
}
