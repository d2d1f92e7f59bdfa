/** The interactive settings wizard of the `pulp-smash` command
    (pulp_smash/pulp_smash_cli.py): the two prompt value types and the
    settings it builds for one host from the answers. A prompt answer is a
    parameter; `None` stands for accepting the prompt's default, and a
    closed choice is a datatype, since the prompt asks again until the
    answer is one of the choices. */
module PulpSmashCli {
  import opened Results
  import opened Strs
  import opened Json
  import opened Versions
  import Config
  import Cli

  // ---------------------------------------------------------------------
  // Prompt value types.

  /** `PulpVersionType.convert`: a version string that parses, is at least
      2 and is less than 4. */
  function ConvertPulpVersion(value: string): (r: Result<Version>)
    ensures Parse(value).None? ==> r == Err(InvalidVersion(value))
    ensures Parse(value).Some? ==>
      (r.Ok? <==> Le(V(2), Parse(value).value) && Lt(Parse(value).value, V(4)))
    ensures r.Ok? ==> r.value == Parse(value).value
    ensures Parse(value).Some? && r.Err? ==> r.error.UsageError?
  {
    match Parse(value)
    case None => Err(InvalidVersion(value))
    case Some(v) =>
      CompareFlip(v, V(2));
      if Lt(v, V(2)) || !Lt(v, V(4)) then
        Err(UsageError("Pulp Smash can test Pulp version 2.y and 3.y. It can't test Pulp version "
          + Format(v) + "."))
      else Ok(v)
  }

  /** `TaskTimeoutType.convert`: an integer from 1 to 1800 seconds. */
  function ConvertTaskTimeout(value: string): (r: Result<int>)
    ensures ParseInt(value).None? ==> r.Err? && r.error.ValueError?
    ensures ParseInt(value).Some? ==> (r.Ok? <==> 1 <= ParseInt(value).value <= 1800)
    ensures r.Ok? ==> r.value == ParseInt(value).value
    ensures ParseInt(value).Some? && r.Err? ==> r.error.UsageError?
  {
    match ParseInt(value)
    case None => Err(ValueError("invalid literal for int() with base 10: '" + value + "'"))
    case Some(n) =>
      if 1 <= n <= 1800 then Ok(n)
      else
        Err(UsageError("Task time out has to be between 1 and 1800. Provided value "
          + IntToString(n) + " is out of the range."))
  }

  /** A timeout typed as a number is accepted exactly when it is in range. */
  lemma TaskTimeoutRange(n: int)
    ensures ConvertTaskTimeout(IntToString(n)).Ok? <==> 1 <= n <= 1800
    ensures ConvertTaskTimeout(IntToString(n)).Ok? ==> ConvertTaskTimeout(IntToString(n)).value == n
  {
    ParseIntOfIntToString(n);
  }

  // ---------------------------------------------------------------------
  // Answers.

  datatype Scheme = Https | Http
  datatype Broker = Qpidd | Rabbitmq
  datatype WebServer = Httpd | Nginx

  function SchemeName(s: Scheme): string {
    match s
    case Https => "https"
    case Http => "http"
  }

  function BrokerName(b: Broker): string {
    match b
    case Qpidd => "qpidd"
    case Rabbitmq => "rabbitmq"
  }

  function WebServerName(w: WebServer): string {
    match w
    case Httpd => "httpd"
    case Nginx => "nginx"
  }

  /** Answers to the questions about one service endpoint (`api` or
      `content`): scheme, whether to verify HTTPS, certificate path, port,
      and the service behind it. */
  datatype EndpointAnswers = EndpointAnswers(
    scheme: Option<Scheme>,
    verify: Option<bool>,
    certificatePath: Option<string>,
    port: Option<int>,
    service: Option<string>)

  /** Answers to the questions about one host. `sameHost` is whether Pulp
      Smash runs on the Pulp host; `contentOnApi` whether content is served
      by the API server on its port (Pulp 3 only). */
  datatype HostAnswers = HostAnswers(
    hostname: string,
    broker: Option<Broker>,
    api: EndpointAnswers,
    apiService: Option<WebServer>,
    sameHost: bool,
    contentOnApi: Option<bool>,
    content: EndpointAnswers)

  // ---------------------------------------------------------------------
  // Roles.

  /** The `verify` setting of an endpoint: the certificate path, or true
      when it is empty, if the scheme is https and verification is
      confirmed; false otherwise. */
  function VerifySetting(scheme: Scheme, a: EndpointAnswers): (r: Json)
    ensures r == JBool(false) <==> !(scheme == Https && a.verify != Some(false))
    ensures r == JBool(true) <==>
      scheme == Https && a.verify != Some(false) && (a.certificatePath.None? || a.certificatePath == Some(""))
    ensures r.JStr? ==> a.certificatePath == Some(r.s) && r.s != ""
    ensures scheme == Https && a.verify != Some(false) && a.certificatePath.Some? && a.certificatePath.value != "" ==>
      r == JStr(a.certificatePath.value)
  {
    var path := if a.certificatePath.Some? then a.certificatePath.value else "";
    if scheme == Https && (if a.verify.Some? then a.verify.value else true) then
      if path != "" then JStr(path) else JBool(true)
    else JBool(false)
  }

  /** The port the `api` prompt offers: 0 (the scheme's own port) for Pulp 2
      and 24817 for Pulp 3. */
  function DefaultApiPort(version: Version): int {
    if Lt(version, V(3)) then 0 else 24817
  }

  function DefaultApiService(version: Version): WebServer {
    if Lt(version, V(3)) then Httpd else Nginx
  }

  /** An endpoint's settings, set key by key: scheme, verify, the port only
      when it is not zero, then the service. */
  function EndpointRole(a: EndpointAnswers, defaultPort: int, service: string): (r: Dict<Json>)
    ensures DistinctKeys(r)
    ensures Get(r, "scheme") == Some(JStr(SchemeName(if a.scheme.Some? then a.scheme.value else Https)))
    ensures Get(r, "verify") == Some(VerifySetting(if a.scheme.Some? then a.scheme.value else Https, a))
    ensures var port := if a.port.Some? then a.port.value else defaultPort;
      (HasKey(r, "port") <==> port != 0) && (port != 0 ==> Get(r, "port") == Some(JInt(port)))
    ensures Get(r, "service") == Some(JStr(service))
    ensures Keys(r) == ["scheme", "verify"]
      + (if (if a.port.Some? then a.port.value else defaultPort) != 0 then ["port"] else []) + ["service"]
  {
    var scheme := if a.scheme.Some? then a.scheme.value else Https;
    var port := if a.port.Some? then a.port.value else defaultPort;
    var d1 := Set([], "scheme", JStr(SchemeName(scheme)));
    var d2 := Set(d1, "verify", VerifySetting(scheme, a));
    var d3 := if port != 0 then Set(d2, "port", JInt(port)) else d2;
    var d4 := Set(d3, "service", JStr(service));
    EndpointRoleFacts(d1, d2, d3, d4, scheme, a, port, service);
    d4
  }

  lemma EndpointRoleFacts(d1: Dict<Json>, d2: Dict<Json>, d3: Dict<Json>, d4: Dict<Json>,
                          scheme: Scheme, a: EndpointAnswers, port: int, service: string)
    requires d1 == Set([], "scheme", JStr(SchemeName(scheme)))
    requires d2 == Set(d1, "verify", VerifySetting(scheme, a))
    requires d3 == if port != 0 then Set(d2, "port", JInt(port)) else d2
    requires d4 == Set(d3, "service", JStr(service))
    ensures Keys(d4) == ["scheme", "verify"] + (if port != 0 then ["port"] else []) + ["service"]
    ensures DistinctKeys(d4)
    ensures Get(d4, "scheme") == Some(JStr(SchemeName(scheme)))
    ensures Get(d4, "verify") == Some(VerifySetting(scheme, a))
    ensures (HasKey(d4, "port") <==> port != 0) && (port != 0 ==> Get(d4, "port") == Some(JInt(port)))
    ensures Get(d4, "service") == Some(JStr(service))
  {
    var s := JStr(SchemeName(scheme));
    var v := VerifySetting(scheme, a);
    SchemeVerifySet(s, v);
    if port != 0 {
      EndpointWithPort(d2, s, v, JInt(port), JStr(service));
      assert d4 == Set(Set(d2, "port", JInt(port)), "service", JStr(service));
    } else {
      EndpointWithoutPort(d2, s, v, JStr(service));
      assert d4 == Set(d2, "service", JStr(service));
    }
  }

  /** Setting the scheme, then the verify setting, on an empty dict. */
  lemma SchemeVerifySet(s: Json, v: Json)
    ensures Set(Set([], "scheme", s), "verify", v) == [("scheme", s), ("verify", v)]
  {
    SetNew([], "scheme", s);
    assert Keys([("scheme", s)]) == ["scheme"];
    SetNew([("scheme", s)], "verify", v);
  }

  /** The settings with a port. */
  lemma EndpointWithPort(d2: Dict<Json>, s: Json, v: Json, p: Json, sv: Json)
    requires d2 == [("scheme", s), ("verify", v)]
    ensures var d4 := Set(Set(d2, "port", p), "service", sv);
      Keys(d4) == ["scheme", "verify"] + ["port"] + ["service"] && DistinctKeys(d4)
      && Get(d4, "scheme") == Some(s) && Get(d4, "verify") == Some(v)
      && Get(d4, "port") == Some(p) && Get(d4, "service") == Some(sv)
  {
    DictOf2Keys("scheme", s, "verify", v);
    SetNew(d2, "port", p);
    DictOf3("scheme", s, "verify", v, "port", p);
    SetNew(d2 + [("port", p)], "service", sv);
    assert d2 + [("port", p)] + [("service", sv)] == [("scheme", s), ("verify", v), ("port", p), ("service", sv)];
    DictOf4("scheme", s, "verify", v, "port", p, "service", sv);
    assert ["scheme", "verify", "port", "service"] == ["scheme", "verify"] + ["port"] + ["service"];
  }

  /** The settings without a port. */
  lemma EndpointWithoutPort(d2: Dict<Json>, s: Json, v: Json, sv: Json)
    requires d2 == [("scheme", s), ("verify", v)]
    ensures var d4 := Set(d2, "service", sv);
      Keys(d4) == ["scheme", "verify"] + [] + ["service"] && DistinctKeys(d4) && !HasKey(d4, "port")
      && Get(d4, "scheme") == Some(s) && Get(d4, "verify") == Some(v)
      && Get(d4, "service") == Some(sv)
  {
    var d4 := Set(d2, "service", sv);
    var ks: seq<string> := ["scheme", "verify", "service"];
    assert d4 == [("scheme", s), ("verify", v), ("service", sv)] by {
      DictOf2Keys("scheme", s, "verify", v);
      SetNew(d2, "service", sv);
    }
    DictOf3("scheme", s, "verify", v, "service", sv);
    assert Keys(d4) == ["scheme", "verify"] + [] + ["service"] by {
      assert ks == ["scheme", "verify"] + [] + ["service"];
    }
    assert !HasKey(d4, "port") by {
      assert forall i :: 0 <= i < |ks| ==> |ks[i]| != 4;
    }
  }

  /** `_get_api_role(pulp_version)` */
  function ApiRole(version: Version, a: EndpointAnswers, service: Option<WebServer>): (r: Dict<Json>)
    ensures DistinctKeys(r)
    ensures a.port.None? && Lt(version, V(3)) ==> !HasKey(r, "port")
    ensures a.port.None? && !Lt(version, V(3)) ==> Get(r, "port") == Some(JInt(24817))
    ensures service.None? ==>
      Get(r, "service") == Some(JStr(if Lt(version, V(3)) then "httpd" else "nginx"))
  {
    EndpointRole(a, DefaultApiPort(version),
      WebServerName(if service.Some? then service.value else DefaultApiService(version)))
  }

  /** `_get_content_role()`: default port 24816, default service
      "pulp_content_app". */
  function ContentRole(a: EndpointAnswers): (r: Dict<Json>)
    ensures DistinctKeys(r)
    ensures a.port.None? ==> Get(r, "port") == Some(JInt(24816))
    ensures a.service.None? ==> Get(r, "service") == Some(JStr("pulp_content_app"))
  {
    EndpointRole(a, 24816, if a.service.Some? then a.service.value else "pulp_content_app")
  }

  /** `_get_shell_role(hostname)` */
  function ShellRole(sameHost: bool): (r: Dict<Json>)
    ensures Get(r, "transport") == Some(JStr(if sameHost then "local" else "ssh"))
    ensures Keys(r) == ["transport"]
  {
    [("transport", JStr(if sameHost then "local" else "ssh"))]
  }

  /** The role names of a Pulp 2 host, in the order the wizard writes them. */
  const V2RoleNames: seq<string> := ["amqp broker", "api", "mongod", "pulp celerybeat", "pulp cli",
    "pulp resource manager", "pulp workers", "shell", "squid"]

  /** The role names of a Pulp 3 host, before the optional `content` role. */
  const V3RoleNames: seq<string> := ["api", "pulp resource manager", "pulp workers", "redis", "shell"]

  /** The Pulp 2 roles dict around the settings of its three roles that
      are not empty. */
  function V2RolesOf(broker: Json, api: Json, shell: Json): (r: Dict<Json>)
    ensures Keys(r) == V2RoleNames
    ensures r[0].1 == broker && r[1].1 == api && r[7].1 == shell
    ensures forall i :: 0 <= i < |r| && i != 0 && i != 1 && i != 7 ==> r[i].1 == JObj([])
  {
    [("amqp broker", broker), ("api", api), ("mongod", JObj([])), ("pulp celerybeat", JObj([])),
     ("pulp cli", JObj([])), ("pulp resource manager", JObj([])), ("pulp workers", JObj([])),
     ("shell", shell), ("squid", JObj([]))]
  }

  /** Every role of a Pulp 2 roles dict is what a lookup by its name finds. */
  lemma V2RolesOfGet(broker: Json, api: Json, shell: Json, i: nat)
    requires i < |V2RoleNames|
    ensures var r := V2RolesOf(broker, api, shell); Get(r, r[i].0) == Some(r[i].1)
  {
    var r := V2RolesOf(broker, api, shell);
    forall j | 0 <= j < i ensures r[j].0 != r[i].0 {
      assert Keys(r)[j] == V2RoleNames[j] && Keys(r)[i] == V2RoleNames[i];
    }
    GetFirst(r, i);
  }

  /** `{"service": amqp_broker}` */
  function BrokerRole(broker: Option<Broker>): (r: Json)
    ensures Config.Field(r, "service") == Some(JStr(if broker == Some(Rabbitmq) then "rabbitmq" else "qpidd"))
  {
    JObj([("service", JStr(BrokerName(if broker.Some? then broker.value else Qpidd)))])
  }

  /** `_get_v2_host_properties(...)["roles"]` */
  function V2Roles(version: Version, a: HostAnswers): (r: Dict<Json>)
    ensures Keys(r) == V2RoleNames
  {
    V2RolesOf(BrokerRole(a.broker), JObj(ApiRole(version, a.api, a.apiService)), JObj(ShellRole(a.sameHost)))
  }

  /** The Pulp 3 roles dict around the settings of `api`, `shell` and the
      optional `content` role, which comes last. */
  function V3RolesOf(api: Json, shell: Json, content: Option<Json>): (r: Dict<Json>)
    ensures Keys(r) == V3RoleNames + (if content.Some? then ["content"] else [])
    ensures Get(r, "shell") == Some(shell)
    ensures Get(r, "api") == Some(api)
    ensures Get(r, "content") == content
  {
    var base := V3BaseRoles(api, shell);
    var extra := if content.Some? then [("content", content.value)] else [];
    V3BaseRolesFacts(api, shell);
    KeysAppend(base, extra);
    GetAppend(base, extra, "shell");
    GetAppend(base, extra, "api");
    GetAppend(base, extra, "content");
    base + extra
  }

  /** The Pulp 3 roles every host has. */
  function V3BaseRoles(api: Json, shell: Json): Dict<Json> {
    [("api", api), ("pulp resource manager", JObj([])), ("pulp workers", JObj([])),
     ("redis", JObj([])), ("shell", shell)]
  }

  /** The roles every Pulp 3 host has are named in order, with the `api`
      and `shell` settings given, and no `content` role. */
  lemma V3BaseRolesFacts(api: Json, shell: Json)
    ensures Keys(V3BaseRoles(api, shell)) == V3RoleNames
    ensures Get(V3BaseRoles(api, shell), "api") == Some(api)
    ensures Get(V3BaseRoles(api, shell), "shell") == Some(shell)
    ensures !HasKey(V3BaseRoles(api, shell), "content")
  {
    var base := V3BaseRoles(api, shell);
    var ks := Keys(base);
    assert ks[0] == "api" && ks[1] == "pulp resource manager" && ks[2] == "pulp workers";
    assert ks[3] == "redis" && ks[4] == "shell";
    assert ks == V3RoleNames;
    GetCons(base, "api");
    GetFirst(base, 4);
  }

  /** `_get_v3_host_properties(...)["roles"]`: the `content` role is added
      unless content is served by the API server (the default answer is
      that it is not). */
  function V3Roles(version: Version, a: HostAnswers): (r: Dict<Json>)
    ensures Keys(r) == V3RoleNames + (if a.contentOnApi == Some(true) then [] else ["content"])
  {
    V3RolesOf(JObj(ApiRole(version, a.api, a.apiService)), JObj(ShellRole(a.sameHost)),
      if a.contentOnApi == Some(true) then None else Some(JObj(ContentRole(a.content))))
  }

  /** `{"hostname": hostname, "roles": roles}` */
  function HostOf(hostname: string, roles: Dict<Json>): (r: Json)
    ensures r.JObj? && Keys(r.fields) == ["hostname", "roles"]
    ensures Get(r.fields, "hostname") == Some(JStr(hostname))
    ensures Get(r.fields, "roles") == Some(JObj(roles))
  {
    JObj([("hostname", JStr(hostname)), ("roles", JObj(roles))])
  }

  /** `_get_host_properties(pulp_version)`: the Pulp 2 roles below version
      3, the Pulp 3 roles from it. */
  function HostProperties(version: Version, a: HostAnswers): (r: Json)
    ensures r.JObj? && Keys(r.fields) == ["hostname", "roles"]
    ensures Get(r.fields, "hostname") == Some(JStr(a.hostname))
    ensures Lt(version, V(3)) ==> Get(r.fields, "roles") == Some(JObj(V2Roles(version, a)))
    ensures !Lt(version, V(3)) ==> Get(r.fields, "roles") == Some(JObj(V3Roles(version, a)))
  {
    HostOf(a.hostname, if Lt(version, V(3)) then V2Roles(version, a) else V3Roles(version, a))
  }

  /** The host the wizard writes, as `read` would load it. */
  function AsHost(version: Version, a: HostAnswers): Config.Host {
    Config.Host(a.hostname, Get(HostProperties(version, a).fields, "roles").value.fields)
  }

  /** The settings of each role of a Pulp 2 host are what a lookup by its
      name finds, and satisfy the schema of `config.py` whenever the API
      port answer is a port number. */
  lemma V2RoleEntry(version: Version, a: HostAnswers, i: nat)
    requires a.api.port.None? || 0 <= a.api.port.value <= 65535
    requires i < |V2RoleNames|
    ensures var roles := V2Roles(version, a);
      && Get(roles, roles[i].0) == Some(roles[i].1)
      && roles[i].0 in Config.Roles
      && Config.RoleConforms(roles[i].0, roles[i].1)
  {
    var broker := BrokerRole(a.broker);
    var api := JObj(ApiRole(version, a.api, a.apiService));
    var shell := JObj(ShellRole(a.sameHost));
    var roles := V2RolesOf(broker, api, shell);
    V2RolesOfGet(broker, api, shell, i);
    assert roles[i].0 == V2RoleNames[i] by {
      assert Keys(roles)[i] == roles[i].0;
    }
    if i == 1 {
      ApiRoleConforms(version, a.api, a.apiService);
    } else if i == 7 {
      assert Config.Field(shell, "transport") == Some(JStr(if a.sameHost then "local" else "ssh"));
    }
  }

  /** A host object satisfies the schema of `config.py` when its roles do. */
  lemma HostOfConforms(hostname: string, roles: Dict<Json>)
    requires Config.RolesConform(JObj(roles))
    ensures Config.SystemConforms(HostOf(hostname, roles))
  {
    var h := HostOf(hostname, roles);
    assert Config.Field(h, "roles") == Some(JObj(roles));
    assert Config.Field(h, "hostname") == Some(JStr(hostname));
    assert Config.KeysWithin(h.fields, {"hostname", "roles"}) by {
      assert forall i :: 0 <= i < |h.fields| ==> h.fields[i].0 == Keys(h.fields)[i];
    }
    assert HasKey(h.fields, "hostname") && HasKey(h.fields, "roles") by {
      assert Keys(h.fields)[0] == "hostname" && Keys(h.fields)[1] == "roles";
    }
  }

  /** The roles of a Pulp 2 host as the wizard writes them satisfy the
      schema of `config.py` whenever the API port answer is a port number. */
  lemma V2RolesConform(version: Version, a: HostAnswers)
    requires a.api.port.None? || 0 <= a.api.port.value <= 65535
    ensures Config.RolesConform(JObj(V2Roles(version, a)))
  {
    var broker := BrokerRole(a.broker);
    var shell := JObj(ShellRole(a.sameHost));
    ApiRoleConforms(version, a.api, a.apiService);
    assert Config.Field(shell, "transport") == Some(JStr(if a.sameHost then "local" else "ssh"));
    V2RolesOfConform(broker, JObj(ApiRole(version, a.api, a.apiService)), shell);
  }

  /** A Pulp 2 roles dict satisfies the schema when its broker, API and
      shell settings do. */
  lemma V2RolesOfConform(broker: Json, api: Json, shell: Json)
    requires Config.RoleConforms("amqp broker", broker)
    requires Config.RoleConforms("api", api)
    requires Config.RoleConforms("shell", shell)
    ensures Config.RolesConform(JObj(V2RolesOf(broker, api, shell)))
  {
    var r := V2RolesOf(broker, api, shell);
    forall i | 0 <= i < |r|
      ensures Get(r, r[i].0) == Some(r[i].1)
      ensures r[i].0 in Config.Roles && Config.RoleConforms(r[i].0, r[i].1)
    {
      V2RolesOfGet(broker, api, shell, i);
      assert r[i].0 == V2RoleNames[i] by {
        assert Keys(r)[i] == r[i].0;
      }
    }
    assert HasKey(r, "shell") by {
      assert Keys(r)[7] == "shell";
    }
  }

  /** A Pulp 2 host as the wizard writes it satisfies the schema of
      `config.py` whenever the API port answer is a port number, and it
      carries every role `config.py` requires. */
  lemma V2HostConforms(version: Version, a: HostAnswers)
    requires Lt(version, V(3))
    requires a.api.port.None? || 0 <= a.api.port.value <= 65535
    ensures Config.SystemConforms(HostProperties(version, a))
    ensures forall role :: role in Config.RequiredRoles ==> HasKey(V2Roles(version, a), role)
  {
    var roles := V2Roles(version, a);
    V2RolesConform(version, a);
    HostOfConforms(a.hostname, roles);
    forall role | role in Config.RequiredRoles ensures HasKey(roles, role) {
      assert role in V2RoleNames;
    }
  }

  /** The `api` settings the wizard writes satisfy the schema of `config.py`
      whenever the port answer is a port number. */
  lemma ApiRoleConforms(version: Version, a: EndpointAnswers, service: Option<WebServer>)
    requires a.port.None? || 0 <= a.port.value <= 65535
    ensures Config.RoleConforms("api", JObj(ApiRole(version, a, service)))
  {
    var r := ApiRole(version, a, service);
    var v := JObj(r);
    assert Config.Field(v, "scheme") == Get(r, "scheme");
    assert Config.Field(v, "verify") == Get(r, "verify");
    assert Config.Field(v, "port") == Get(r, "port");
  }

  /** The shell role the wizard writes makes the execution client use a
      local shell exactly when Pulp Smash runs on the Pulp host, whatever
      the local machine's name. */
  lemma ShellRoleTransport(version: Version, a: HostAnswers, fqdn: string)
    ensures Cli.ChooseTransport(AsHost(version, a), fqdn) == Ok(if a.sameHost then "local" else "ssh")
  {
    var host := AsHost(version, a);
    var shell := JObj(ShellRole(a.sameHost));
    if Lt(version, V(3)) {
      var broker := BrokerRole(a.broker);
      var api := JObj(ApiRole(version, a.api, a.apiService));
      V2RolesOfGet(broker, api, shell, 7);
      assert V2RolesOf(broker, api, shell)[7].0 == "shell" by {
        assert Keys(V2RolesOf(broker, api, shell))[7] == "shell";
      }
    }
    assert Get(host.roles, "shell") == Some(shell);
    assert Cli.ShellSetting(host, "transport") == Ok(Some(JStr(if a.sameHost then "local" else "ssh")));
  }
}
