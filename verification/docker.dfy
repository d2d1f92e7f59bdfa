/** Helpers of the Pulp 2 Docker API tests (pulp_smash/tests/pulp2/docker/api_v2/utils.py):
    the repository and distributor bodies, the Crane URL and client, and
    the body `create_sync_publish_repo` creates a repository with. */
module DockerUtils {
  import opened Results
  import opened Strs
  import opened Json
  import opened Urls
  import Api
  import Config

  // ---------------------------------------------------------------------
  // gen_repo, gen_distributor

  /** The defaults of `gen_repo`, the `uuid4()` value given. */
  function RepoDefaults(repoId: string): Dict<Json> {
    [("id", JStr(repoId)),
     ("importer_config", JObj([])),
     ("importer_type_id", JStr("docker_importer")),
     ("notes", JObj([("_repo-type", JStr("docker-repo"))]))]
  }

  /** The defaults of `gen_distributor`, the `uuid4()` value given. */
  function DistributorDefaults(distributorId: string): Dict<Json> {
    [("auto_publish", JBool(false)),
     ("distributor_config", JObj([])),
     ("distributor_id", JStr(distributorId)),
     ("distributor_type_id", JStr("docker_distributor_web"))]
  }

  /** Four defaults with distinct keys, overridden: each default holds
      unless its key is overridden, and no key but these and the overrides
      appears. */
  lemma OverriddenFour(d: Dict<Json>, kwargs: Dict<Json>)
    requires |d| == 4 && DistinctKeys(d) && DistinctKeys(kwargs)
    ensures forall k :: HasKey(kwargs, k) ==> Get(Overridden(d, kwargs), k) == Get(kwargs, k)
    ensures !HasKey(kwargs, d[0].0) ==> Get(Overridden(d, kwargs), d[0].0) == Some(d[0].1)
    ensures !HasKey(kwargs, d[1].0) ==> Get(Overridden(d, kwargs), d[1].0) == Some(d[1].1)
    ensures !HasKey(kwargs, d[2].0) ==> Get(Overridden(d, kwargs), d[2].0) == Some(d[2].1)
    ensures !HasKey(kwargs, d[3].0) ==> Get(Overridden(d, kwargs), d[3].0) == Some(d[3].1)
    ensures forall k :: HasKey(Overridden(d, kwargs), k) <==>
      k == d[0].0 || k == d[1].0 || k == d[2].0 || k == d[3].0 || HasKey(kwargs, k)
  {
    forall i | 0 <= i < 4 ensures Get(d, d[i].0) == Some(d[i].1) {
      GetEntry(d, i);
    }
    assert forall k :: HasKey(d, k) <==> k in Keys(d);
    assert Keys(d) == [d[0].0, d[1].0, d[2].0, d[3].0];
  }

  /** `gen_repo(**kwargs)`: a Docker repository with a random id, an empty
      importer configuration and the `docker-repo` note, any keyword
      argument replacing the default of its key. */
  function GenRepo(repoId: string, kwargs: Dict<Json>): (r: Dict<Json>)
    requires DistinctKeys(kwargs)
    ensures forall k :: HasKey(kwargs, k) ==> Get(r, k) == Get(kwargs, k)
    ensures !HasKey(kwargs, "id") ==> Get(r, "id") == Some(JStr(repoId))
    ensures !HasKey(kwargs, "importer_config") ==> Get(r, "importer_config") == Some(JObj([]))
    ensures !HasKey(kwargs, "importer_type_id") ==> Get(r, "importer_type_id") == Some(JStr("docker_importer"))
    ensures !HasKey(kwargs, "notes") ==> Get(r, "notes") == Some(JObj([("_repo-type", JStr("docker-repo"))]))
    ensures forall k :: HasKey(r, k) <==> k == "id" || k == "importer_config" || k == "importer_type_id" || k == "notes" || HasKey(kwargs, k)
  {
    var d := RepoDefaults(repoId);
    assert Keys(d) == ["id", "importer_config", "importer_type_id", "notes"];
    OverriddenFour(d, kwargs);
    Overridden(d, kwargs)
  }

  /** `gen_distributor(**kwargs)`: a Docker web distributor with a random
      id, an empty configuration and no automatic publishing, any keyword
      argument replacing the default of its key. */
  function GenDistributor(distributorId: string, kwargs: Dict<Json>): (r: Dict<Json>)
    requires DistinctKeys(kwargs)
    ensures forall k :: HasKey(kwargs, k) ==> Get(r, k) == Get(kwargs, k)
    ensures !HasKey(kwargs, "auto_publish") ==> Get(r, "auto_publish") == Some(JBool(false))
    ensures !HasKey(kwargs, "distributor_config") ==> Get(r, "distributor_config") == Some(JObj([]))
    ensures !HasKey(kwargs, "distributor_id") ==> Get(r, "distributor_id") == Some(JStr(distributorId))
    ensures !HasKey(kwargs, "distributor_type_id") ==> Get(r, "distributor_type_id") == Some(JStr("docker_distributor_web"))
    ensures forall k :: HasKey(r, k) <==>
      k == "auto_publish" || k == "distributor_config" || k == "distributor_id" || k == "distributor_type_id" || HasKey(kwargs, k)
  {
    var d := DistributorDefaults(distributorId);
    assert Keys(d) == ["auto_publish", "distributor_config", "distributor_id", "distributor_type_id"];
    OverriddenFour(d, kwargs);
    Overridden(d, kwargs)
  }

  // ---------------------------------------------------------------------
  // adjust_url, make_crane_client

  /** Crane's port. */
  const CranePort: string := "5000"

  /** The parts `adjust_url` unsplits: "http", the host with Crane's port,
      and the rest as split. */
  function CraneParts(parts: SplitResult): SplitResult {
    SplitResult("http", Partition(parts.netloc, ':').0 + ":" + CranePort, parts.path, parts.query, parts.fragment)
  }

  /** The Crane parts of a split URL split back out of their unsplit form,
      a relative path rooted. */
  lemma SplitCraneParts(parts: SplitResult)
    requires forall k :: 0 <= k < |parts.netloc| ==> !IsDelim(parts.netloc[k])
    requires '?' !in parts.path && '#' !in parts.path && '#' !in parts.query
    ensures UrlSplit(UrlUnsplit(CraneParts(parts))) == CraneParts(parts).(path := Rooted(parts.path))
  {
    var host := Partition(parts.netloc, ':').0;
    assert forall k :: 0 <= k < |host| ==> host[k] == parts.netloc[k];
    HttpSchemes();
    SplitUnsplitRooted(CraneParts(parts));
  }

  /** `adjust_url(url)`: the URL over plain HTTP on Crane's port: the
      scheme becomes "http", the port (if any) is replaced by 5000, and
      the path, query and fragment are kept. */
  function AdjustUrl(url: string): (r: string)
    ensures UrlSplit(r).scheme == "http"
    ensures UrlSplit(r).netloc == Partition(UrlSplit(url).netloc, ':').0 + ":" + CranePort
    ensures UrlSplit(r).path == Rooted(UrlSplit(url).path)
    ensures UrlSplit(url).netloc != "" ==> UrlSplit(r).path == UrlSplit(url).path
    ensures UrlSplit(r).query == UrlSplit(url).query
    ensures UrlSplit(r).fragment == UrlSplit(url).fragment
  {
    var parts := UrlSplit(url);
    SplitCraneParts(parts);
    assert parts.netloc != "" ==> Rooted(parts.path) == parts.path by {
      if parts.netloc != "" {
        SplitPathRooted(url);
      }
    }
    UrlUnsplit(CraneParts(parts))
  }

  /** Adjusting an adjusted URL changes nothing. */
  lemma AdjustUrlIdempotent(url: string)
    ensures AdjustUrl(AdjustUrl(url)) == AdjustUrl(url)
  {
    var once := AdjustUrl(url);
    var host := Partition(UrlSplit(url).netloc, ':').0;
    assert Partition(UrlSplit(once).netloc, ':').0 == host by {
      PartitionAt(host, CranePort, ':');
    }
    var parts := UrlSplit(url);
    assert UrlSplit(once) == SplitResult("http", host + ":" + CranePort, Rooted(parts.path), parts.query, parts.fragment);
    assert Rooted(Rooted(parts.path)) == Rooted(parts.path);
    assert UrlUnsplit(SplitResult("http", host + ":" + CranePort, Rooted(parts.path), parts.query, parts.fragment))
        == UrlUnsplit(SplitResult("http", host + ":" + CranePort, parts.path, parts.query, parts.fragment));
  }

  /** `make_crane_client(cfg)`: a JSON client that sends an
      `accept: application/json` header, its base URL adjusted for Crane. */
  function CraneClient(cfg: Config.PulpSmashConfig, baseUrl: string): (r: Result<Api.Client>)
    ensures r.Ok? <==> Config.GetRequestsKwargs(cfg, None).Ok?
    ensures r.Ok? ==> r.value.handler == Api.JsonHandler
    ensures r.Ok? ==> Get(r.value.requestKwargs, "url") == Some(JStr(AdjustUrl(baseUrl)))
    ensures r.Ok? ==> Get(r.value.requestKwargs, "headers") == Some(JObj([("accept", JStr("application/json"))]))
    ensures r.Ok? ==> forall k :: k != "url" && k != "headers" ==>
      Get(r.value.requestKwargs, k) == Get(Config.GetRequestsKwargs(cfg, None).value, k)
  {
    var headers := JObj([("accept", JStr("application/json"))]);
    var extra := [("headers", headers)];
    assert DistinctKeys(extra) by {
      assert Keys(extra) == ["headers"];
    }
    var c :- Api.NewClient(cfg, baseUrl, Some(Api.JsonHandler), Some(extra));
    var url := AdjustUrl(baseUrl);
    CraneKwargs(c.requestKwargs, Config.GetRequestsKwargs(cfg, None).value, baseUrl, url, headers);
    Ok(c.(requestKwargs := Set(c.requestKwargs, "url", JStr(url))))
  }

  /** The arguments of a client made with only a `headers` argument of its
      own, its URL then replaced: the new URL, those headers, and
      everything else as in the configuration's defaults. */
  lemma CraneKwargs(kwargs: Dict<Json>, defaults: Dict<Json>, baseUrl: string, url: string, headers: Json)
    requires forall k ::
               Get(kwargs, k) ==
                 (if HasKey([("headers", headers)], k) then Get([("headers", headers)], k)
                  else if k == "url" then Some(JStr(baseUrl))
                  else Get(defaults, k))
    ensures Get(Set(kwargs, "url", JStr(url)), "url") == Some(JStr(url))
    ensures Get(Set(kwargs, "url", JStr(url)), "headers") == Some(headers)
    ensures forall k :: k != "url" && k != "headers" ==> Get(Set(kwargs, "url", JStr(url)), k) == Get(defaults, k)
  {
    var extra := [("headers", headers)];
    assert Keys(extra) == ["headers"];
    Config.SetGetAll(kwargs, "url", JStr(url));
    assert Get(kwargs, "headers") == Some(headers);
  }

  // ---------------------------------------------------------------------
  // create_sync_publish_repo

  /** The body `create_sync_publish_repo` creates its repository with:
      `gen_repo()` with the importer configuration copied into its empty
      one, and the given distributors, or one generated distributor when
      they are null (Python's `None`, also what an omitted argument is). */
  function CreateRepoBody(repoId: string, distributorId: string, importerConfig: Dict<Json>,
                          distributors: Json): (r: Dict<Json>)
    requires DistinctKeys(importerConfig)
    ensures Get(r, "id") == Some(JStr(repoId))
    ensures Get(r, "importer_type_id") == Some(JStr("docker_importer"))
    ensures Get(r, "importer_config").Some? && Get(r, "importer_config").value.JObj?
    ensures forall k :: Get(Get(r, "importer_config").value.fields, k) == Get(importerConfig, k)
    ensures distributors != JNull ==> Get(r, "distributors") == Some(distributors)
    ensures distributors == JNull ==> Get(r, "distributors") == Some(JArr([JObj(GenDistributor(distributorId, []))]))
    ensures Get(r, "notes") == Some(JObj([("_repo-type", JStr("docker-repo"))]))
  {
    var body := GenRepo(repoId, []);
    assert Keys<Json>([]) == [];
    var config := Update([], importerConfig);
    forall k ensures Get(config, k) == Get(importerConfig, k) {
      UpdateGet([], importerConfig, k);
    }
    var ds := if distributors != JNull then distributors else JArr([JObj(GenDistributor(distributorId, []))]);
    var withConfig := Set(body, "importer_config", JObj(config));
    var r := Set(withConfig, "distributors", ds);
    SetGet(body, "importer_config", JObj(config), "id");
    SetGet(body, "importer_config", JObj(config), "importer_type_id");
    SetGet(withConfig, "distributors", ds, "id");
    SetGet(withConfig, "distributors", ds, "importer_type_id");
    SetGet(withConfig, "distributors", ds, "importer_config");
    SetGet(withConfig, "distributors", ds, "distributors");
    SetGet(body, "importer_config", JObj(config), "importer_config");
    SetGet(body, "importer_config", JObj(config), "notes");
    SetGet(withConfig, "distributors", ds, "notes");
    r
  }
}
