/** Helpers of the Pulp 2 RPM API tests (pulp_smash/pulp2/tests/rpm/api_v2/utils.py):
    the YUM distributor body, where a distributor publishes its
    `repodata/` files and packages, choosing a file of `repomd.xml` by
    type, finding a package by file name, keying distributors by type,
    the decision to gunzip an XML response, and the commands that toggle
    the `pulp_manage_rsync` SELinux boolean.

    XML documents are given already parsed into the facts the helpers read
    from them: the `location` hrefs of `repomd.xml` by data type, and the
    package `location` hrefs of `primary.xml`. */
module RpmUtils {
  import opened Results
  import opened Strs
  import opened Json
  import opened Urls
  import Seqs
  import Http
  import Api
  import Pulp2Utils

  // ---------------------------------------------------------------------
  // gen_distributor

  /** `gen_distributor()`, the two `uuid4()` values given: a YUM
      distributor served over HTTP and HTTPS, not published automatically,
      under a relative URL that is the second value and a slash. */
  function GenDistributor(distributorId: string, urlId: string): (r: Json)
    ensures r.JObj? && DistinctKeys(r.fields)
    ensures Subscript(r, "auto_publish") == Ok(JBool(false))
    ensures Subscript(r, "distributor_id") == Ok(JStr(distributorId))
    ensures Subscript(r, "distributor_type_id") == Ok(JStr("yum_distributor"))
    ensures Subscript(r, "distributor_config").Ok?
    ensures Subscript(Subscript(r, "distributor_config").value, "http") == Ok(JBool(true))
    ensures Subscript(Subscript(r, "distributor_config").value, "https") == Ok(JBool(true))
    ensures SubscriptStr(Subscript(r, "distributor_config").value, "relative_url") == Ok(urlId + "/")
    ensures EndsWith(SubscriptStr(Subscript(r, "distributor_config").value, "relative_url").value, "/")
  {
    var config := [("http", JBool(true)), ("https", JBool(true)), ("relative_url", JStr(urlId + "/"))];
    var fields := [
      ("auto_publish", JBool(false)),
      ("distributor_id", JStr(distributorId)),
      ("distributor_type_id", JStr("yum_distributor")),
      ("distributor_config", JObj(config))];
    DictOf3("http", JBool(true), "https", JBool(true), "relative_url", JStr(urlId + "/"));
    DictOf4("auto_publish", JBool(false), "distributor_id", JStr(distributorId),
      "distributor_type_id", JStr("yum_distributor"), "distributor_config", JObj(config));
    assert (urlId + "/")[|urlId + "/"| - 1..] == "/";
    JObj(fields)
  }

  // ---------------------------------------------------------------------
  // Where a distributor publishes

  /** Where Pulp serves the repositories its YUM distributors publish. */
  const ReposPath: string := "/pulp/repos/"

  /** `distributor['config']['relative_url']` as `urljoin('/pulp/repos/',
      ...)` reads it: a string as itself, and a falsy value (null, false,
      0, [], {}) as "", which leaves `/pulp/repos/` as the directory;
      another value raises `TypeError`. */
  function RelativeUrl(distributor: Json): (r: Result<string>)
    ensures r.Ok? <==> Subscript(distributor, "config").Ok? && JoinArgAt(Subscript(distributor, "config").value, "relative_url").Ok?
    ensures r.Ok? ==> r == JoinArgAt(Subscript(distributor, "config").value, "relative_url")
    ensures Subscript(distributor, "config").Ok? ==> r == JoinArgAt(Subscript(distributor, "config").value, "relative_url")
    ensures r.Ok? && Subscript(Subscript(distributor, "config").value, "relative_url").value.JStr? ==>
      r.value == Subscript(Subscript(distributor, "config").value, "relative_url").value.s
    ensures r.Ok? && !Truthy(Subscript(Subscript(distributor, "config").value, "relative_url").value) ==>
      RepoBase(r.value) == ReposPath
  {
    var config :- Subscript(distributor, "config");
    var rel :- JoinArgAt(config, "relative_url");
    assert rel == "" ==> RepoBase(rel) == ReposPath by {
      if rel == "" {
        RepoBaseOfPlain(rel);
      }
    }
    Ok(rel)
  }

  /** The directory a distributor publishes to: its relative URL joined
      onto `/pulp/repos/`, with a slash appended when missing. */
  function RepoBase(relativeUrl: string): (r: string)
    ensures EndsWith(r, "/")
  {
    var path := UrlJoin(ReposPath, relativeUrl);
    var r := if EndsWith(path, "/") then path else path + "/";
    assert r[|r| - 1..] == "/";
    r
  }

  /** A relative URL without scheme, host, query, fragment or leading
      slash, as `gen_distributor` makes them. */
  predicate PlainRelative(relativeUrl: string) {
    PlainPath(relativeUrl) && (relativeUrl == "" || relativeUrl[0] != '/')
  }

  /** `ReposPath` followed by a plain relative path is a plain path. */
  lemma PlainUnderRepos(rel: string, suffix: string)
    requires PlainRelative(rel) && PlainPath(suffix)
    ensures PlainPath(ReposPath + rel + suffix)
  {
    var p := ReposPath + rel + suffix;
    assert p[..2] == "/p";
  }

  /** The directory of a plain relative URL is `/pulp/repos/` followed by
      it, with a slash appended unless it already ends in one. */
  lemma RepoBaseOfPlain(rel: string)
    requires PlainRelative(rel)
    ensures RepoBase(rel) == ReposPath + rel + (if rel == "" || EndsWith(rel, "/") then "" else "/")
    ensures PlainPath(RepoBase(rel))
  {
    PlainUnderRepos(rel, "");
    PlainUnderRepos(rel, "/");
    assert ReposPath + rel + "" == ReposPath + rel;
    if rel == "" {
      assert UrlJoin(ReposPath, rel) == ReposPath;
      assert EndsWith(ReposPath, "/");
    } else {
      assert ReposPath[|ReposPath| - 1..] == "/";
      JoinUnderDirectory(ReposPath, rel);
      var p := ReposPath + rel;
      EndsWithConcat(ReposPath, rel, "/");
    }
  }

  /** A plain relative URL ending in a slash is not given another one. */
  lemma RepoBaseOfDirectory(rel: string)
    requires PlainRelative(rel) && EndsWith(rel, "/")
    ensures RepoBase(rel) == ReposPath + rel
  {
    RepoBaseOfPlain(rel);
    assert ReposPath + rel + "" == ReposPath + rel;
  }

  /** A plain relative path with a slash appended is still plain. */
  lemma PlainWithSlash(urlId: string)
    requires PlainRelative(urlId) && urlId != ""
    ensures PlainRelative(urlId + "/")
  {
    var rel := urlId + "/";
    assert rel[0] == urlId[0];
    assert forall k :: 0 <= k < |urlId| ==> rel[k] == urlId[k];
    assert !StartsWith(rel, "//") by {
      if |urlId| == 1 {
        assert rel[..2] == [urlId[0], '/'];
      } else {
        assert rel[..2] == urlId[..2];
      }
    }
  }

  /** The directory of a plain uuid followed by a slash: `/pulp/repos/`,
      the uuid and one slash. */
  lemma RepoBaseOfSlashed(urlId: string)
    requires PlainRelative(urlId) && urlId != ""
    ensures RepoBase(urlId + "/") == ReposPath + urlId + "/"
  {
    EndsWithConcat(urlId, "/", "/");
    PlainWithSlash(urlId);
    RepoBaseOfDirectory(urlId + "/");
  }

  /** The directory of the distributor `GenDistributor` makes with a plain
      uuid: `/pulp/repos/<uuid>/`, the slash not doubled. */
  lemma RepoBaseOfGenerated(distributorId: string, urlId: string)
    requires PlainRelative(urlId) && urlId != ""
    ensures RepoBase(SubscriptStr(Subscript(GenDistributor(distributorId, urlId), "distributor_config").value, "relative_url").value)
         == ReposPath + urlId + "/"
  {
    var d := GenDistributor(distributorId, urlId);
    assert SubscriptStr(Subscript(d, "distributor_config").value, "relative_url").value == urlId + "/";
    RepoBaseOfSlashed(urlId);
  }

  /** Below the directory of a plain relative URL, a plain relative path
      is appended. */
  lemma UnderRepoBase(rel: string, ref: string)
    requires PlainRelative(rel) && PlainRelative(ref) && ref != ""
    ensures UrlJoin(RepoBase(rel), ref) == RepoBase(rel) + ref
  {
    RepoBaseOfPlain(rel);
    JoinUnderDirectory(RepoBase(rel), ref);
  }

  const RepomdXml: string := "repodata/repomd.xml"

  lemma RepomdXmlPlain()
    ensures PlainRelative(RepomdXml)
  {
    assert RepomdXml[..2] == "re";
  }

  /** `get_repodata_repomd_xml`: the path of the distributor's
      `repodata/repomd.xml`. */
  function RepomdPath(distributor: Json): (r: Result<string>)
    ensures r.Ok? <==> RelativeUrl(distributor).Ok?
    ensures r.Err? ==> r == Err(RelativeUrl(distributor).error)
    ensures r.Ok? && PlainRelative(RelativeUrl(distributor).value) ==>
      r.value == RepoBase(RelativeUrl(distributor).value) + RepomdXml
    ensures r.Ok? && RelativeUrl(distributor).value == "" ==> r.value == ReposPath + RepomdXml
  {
    var rel :- RelativeUrl(distributor);
    var r := UrlJoin(RepoBase(rel), RepomdXml);
    RepomdXmlPlain();
    assert PlainRelative(rel) ==> r == RepoBase(rel) + RepomdXml by {
      if PlainRelative(rel) {
        UnderRepoBase(rel, RepomdXml);
      }
    }
    if rel == "" then
      RepoBaseOfPlain(rel);
      Ok(r)
    else Ok(r)
  }

  // ---------------------------------------------------------------------
  // get_repodata

  /** A `location` element of `repomd.xml`: the type of the `data` element
      holding it and its `href` attribute. */
  datatype Location = Location(dataType: string, href: string)

  /** `repomd_xml.findall(data[@type=type_]/location)`: the locations of
      the given type, in document order. */
  function Matching(repomd: seq<Location>, type_: string): (r: seq<Location>)
    ensures forall i :: 0 <= i < |r| ==> r[i].dataType == type_ && r[i] in repomd
    ensures Seqs.IsSubseq(r, repomd)
    decreases |repomd|
  {
    if |repomd| == 0 then []
    else
      var rest := Matching(repomd[1..], type_);
      assert forall x :: x in repomd[1..] ==> x in repomd;
      if repomd[0].dataType == type_ then
        assert ([repomd[0]] + rest)[1..] == rest;
        [repomd[0]] + rest
      else rest
  }

  /** Exactly one location, at index `i`, has the type. */
  predicate OnlyAt(repomd: seq<Location>, type_: string, i: int) {
    0 <= i < |repomd| && repomd[i].dataType == type_ && forall j :: 0 <= j < |repomd| && j != i ==> repomd[j].dataType != type_
  }

  /** One match means one location of that type in the document, and back. */
  lemma {:induction false} OneMatch(repomd: seq<Location>, type_: string)
    ensures |Matching(repomd, type_)| == 1 <==> exists i :: OnlyAt(repomd, type_, i)
    ensures |Matching(repomd, type_)| == 1 ==> exists i :: OnlyAt(repomd, type_, i) && repomd[i] == Matching(repomd, type_)[0]
    ensures |Matching(repomd, type_)| == 0 <==> forall j :: 0 <= j < |repomd| ==> repomd[j].dataType != type_
    decreases |repomd|
  {
    if |repomd| > 0 {
      var tail := repomd[1..];
      OneMatch(tail, type_);
      assert forall j :: 1 <= j < |repomd| ==> repomd[j] == tail[j - 1];
      if repomd[0].dataType == type_ {
        assert OnlyAt(repomd, type_, 0) <==> forall j :: 0 <= j < |tail| ==> tail[j].dataType != type_;
        forall i | OnlyAt(repomd, type_, i) ensures i == 0 {
        }
      } else {
        forall i | OnlyAt(tail, type_, i) ensures OnlyAt(repomd, type_, i + 1) {
        }
        forall i | OnlyAt(repomd, type_, i) ensures i > 0 && OnlyAt(tail, type_, i - 1) {
        }
      }
    }
  }

  /** `get_repodata(cfg, distributor, type_, repomd_xml=...)`: the path of
      the distributor's file of the given type. Unless `repomd.xml` has
      exactly one location of that type this is a `ValueError`; then the
      location is resolved against the distributor's directory. */
  function RepodataPath(distributor: Json, repomd: seq<Location>, type_: string): (r: Result<string>)
    ensures (r.Err? && r.error.ValueError?) <==> !exists i :: OnlyAt(repomd, type_, i)
    ensures r.Ok? <==> (exists i :: OnlyAt(repomd, type_, i)) && RelativeUrl(distributor).Ok?
    ensures r.Ok? ==>
      exists i :: OnlyAt(repomd, type_, i) && r.value == UrlJoin(RepoBase(RelativeUrl(distributor).value), repomd[i].href)
  {
    var locations := Matching(repomd, type_);
    OneMatch(repomd, type_);
    if |locations| != 1 then
      Err(ValueError("The given \"repomd.xml\" file should contain one matching \"location\" element"))
    else
      var rel :- RelativeUrl(distributor);
      Ok(UrlJoin(RepoBase(rel), locations[0].href))
  }

  // ---------------------------------------------------------------------
  // xml_handler

  /** `xml_handler`: after checking the status code, the bytes the XML
      parser reads: the body gunzipped when the request URL ends in ".gz"
      (whatever the response headers say), else the body as it is. The
      decompressor is given; its failure propagates. */
  function XmlBytes(statusCode: int, requestUrl: string, content: seq<Pulp2Utils.Byte>,
                    gunzip: seq<Pulp2Utils.Byte> -> Result<seq<Pulp2Utils.Byte>>): (r: Result<seq<Pulp2Utils.Byte>>)
    ensures Http.RaiseForStatus(statusCode).Err? ==> r == Err(HTTPError(statusCode))
    ensures Http.RaiseForStatus(statusCode).Ok? && EndsWith(requestUrl, ".gz") ==> r == gunzip(content)
    ensures Http.RaiseForStatus(statusCode).Ok? && !EndsWith(requestUrl, ".gz") ==> r == Ok(content)
  {
    var _ :- Http.RaiseForStatus(statusCode);
    if EndsWith(requestUrl, ".gz") then gunzip(content) else Ok(content)
  }

  // ---------------------------------------------------------------------
  // get_unit

  /** `os.path.basename(href)`: what follows the last slash. */
  function Basename(href: string): (r: string)
    ensures '/' !in r
    ensures EndsWith(href, r)
  {
    var r := AfterLast(href, '/');
    assert href[|href| - |r|..] == r;
    r
  }

  /** The package href `get_unit` picks for a file name out of the
      `location` hrefs of `primary.xml`: `{basename(h): h for h in hrefs}`
      looked up, so a `KeyError` when no href has that file name, and the
      last of them when several do. */
  function UnitHref(hrefs: seq<string>, unitName: string): (r: Result<string>)
    ensures r.Ok? <==> exists i :: 0 <= i < |hrefs| && Basename(hrefs[i]) == unitName
    ensures r.Err? ==> r.error == KeyError(unitName)
    ensures r.Ok? ==> Seqs.LastWithKey(hrefs, Basename, unitName, r.value)
  {
    var byName := Seqs.KeyBy(hrefs, Basename);
    if unitName in byName then Ok(byName[unitName]) else Err(KeyError(unitName))
  }

  /** A package href names the file it ends in. */
  lemma {:induction false} UnitHrefNamesUnit(hrefs: seq<string>, unitName: string)
    requires UnitHref(hrefs, unitName).Ok?
    ensures Basename(UnitHref(hrefs, unitName).value) == unitName
    ensures UnitHref(hrefs, unitName).value in hrefs
    ensures EndsWith(UnitHref(hrefs, unitName).value, unitName)
  {
    var href := UnitHref(hrefs, unitName).value;
    assert Basename(href) == unitName && href in hrefs by {
      LastNamed(hrefs, unitName, href);
    }
  }

  /** The last href with a file name is one of the hrefs, with that name. */
  lemma LastNamed(hrefs: seq<string>, unitName: string, href: string)
    requires Seqs.LastWithKey(hrefs, Basename, unitName, href)
    ensures Basename(href) == unitName && href in hrefs
  {
    var i :| 0 <= i < |hrefs| && hrefs[i] == href && Basename(hrefs[i]) == unitName
      && forall j :: i < j < |hrefs| ==> Basename(hrefs[j]) != unitName;
  }

  /** Once the package's file is gone from `primary.xml`, as after it is
      unassociated and the repository republished, `get_unit` raises a
      `KeyError`. */
  lemma UnitGoneIsKeyError(hrefs: seq<string>, unitName: string)
    requires forall i :: 0 <= i < |hrefs| ==> Basename(hrefs[i]) != unitName
    ensures UnitHref(hrefs, unitName) == Err(KeyError(unitName))
  {
  }

  /** `get_unit(cfg, distributor, unit_name, primary_xml)`: the path the
      package is fetched from, its href resolved against the
      distributor's directory. */
  function UnitPath(distributor: Json, hrefs: seq<string>, unitName: string): (r: Result<string>)
    ensures UnitHref(hrefs, unitName).Err? ==> r == Err(KeyError(unitName))
    ensures r.Ok? <==> UnitHref(hrefs, unitName).Ok? && RelativeUrl(distributor).Ok?
    ensures r.Ok? ==> r.value == UrlJoin(RepoBase(RelativeUrl(distributor).value), UnitHref(hrefs, unitName).value)
  {
    var href :- UnitHref(hrefs, unitName);
    var rel :- RelativeUrl(distributor);
    Ok(UrlJoin(RepoBase(rel), href))
  }

  // ---------------------------------------------------------------------
  // get_dists_by_type_id

  /** The request `get_dists_by_type_id` makes: the repository's
      distributors. */
  function DistributorsCall(repo: Json): (r: Result<Api.Call>)
    ensures r.Ok? <==> JoinArgAt(repo, "_href").Ok?
    ensures r.Ok? ==> r.value.verb == "GET" && r.value.url == UrlJoin(JoinArgAt(repo, "_href").value, "distributors/")
    ensures JoinArgAt(repo, "_href").Err? ==> r == Err(JoinArgAt(repo, "_href").error)
    ensures r.Ok? && !Truthy(Subscript(repo, "_href").value) ==> r.value.url == "distributors/"
    ensures r.Ok? ==> r.value.body.None? && r.value.handler == Api.SafeHandler
  {
    var href :- JoinArgAt(repo, "_href");
    Ok(Api.Call("GET", UrlJoin(href, "distributors/"), None, Api.SafeHandler))
  }

  /** A distributor's `distributor_type_id` (null when it has none). */
  function TypeIdOf(dist: Json): Json {
    match Subscript(dist, "distributor_type_id")
    case Ok(t) => t
    case Err(_) => JNull
  }

  /** `{dist['distributor_type_id']: dist for dist in dists}` over the
      decoded listing: each type id maps to the last distributor of that
      type; the first distributor without one, or with a list or dict
      one (unhashable), raises. */
  function DistsByTypeId(listing: Json): (r: Result<map<Json, Json>>)
    ensures r.Ok? <==>
      PyIter(listing).Ok? && forall i :: 0 <= i < |PyIter(listing).value| ==> Collectable(PyIter(listing).value[i], "distributor_type_id")
    ensures r.Err? && PyIter(listing).Ok? ==>
      exists i :: (0 <= i < |PyIter(listing).value| && !Collectable(PyIter(listing).value[i], "distributor_type_id")
        && r.error == CollectError(PyIter(listing).value[i], "distributor_type_id")
        && forall j :: 0 <= j < i ==> Collectable(PyIter(listing).value[j], "distributor_type_id"))
    ensures r.Ok? ==>
      forall t :: t in r.value <==> exists i :: 0 <= i < |PyIter(listing).value| && Subscript(PyIter(listing).value[i], "distributor_type_id") == Ok(t)
    ensures r.Ok? ==>
      forall t :: t in r.value ==> Subscript(r.value[t], "distributor_type_id") == Ok(t) && Seqs.LastWithKey(PyIter(listing).value, TypeIdOf, t, r.value[t])
  {
    var dists :- PyIter(listing);
    var _ :- Collect(dists, "distributor_type_id");
    KeyedByTypeId(dists);
    Ok(Seqs.KeyBy(dists, TypeIdOf))
  }

  /** Keyed by type id, distributors that all have one map each type id
      to a distributor of that type, and only the type ids they have. */
  lemma KeyedByTypeId(dists: seq<Json>)
    requires forall i :: 0 <= i < |dists| ==> Subscript(dists[i], "distributor_type_id").Ok?
    ensures forall t :: t in Seqs.KeyBy(dists, TypeIdOf) <==>
      exists i :: 0 <= i < |dists| && Subscript(dists[i], "distributor_type_id") == Ok(t)
    ensures forall t :: t in Seqs.KeyBy(dists, TypeIdOf) ==>
      Subscript(Seqs.KeyBy(dists, TypeIdOf)[t], "distributor_type_id") == Ok(t)
  {
    var r := Seqs.KeyBy(dists, TypeIdOf);
    forall i | 0 <= i < |dists| ensures Subscript(dists[i], "distributor_type_id") == Ok(TypeIdOf(dists[i])) {
    }
    forall t | t in r ensures Subscript(r[t], "distributor_type_id") == Ok(t) {
      assert Seqs.LastWithKey(dists, TypeIdOf, t, r[t]);
    }
  }

  // ---------------------------------------------------------------------
  // set_pulp_manage_rsync

  /** The privilege prefix of a command: `sudo` unless the user is root. */
  function Sudo(isRoot: bool): (r: seq<string>)
    ensures |r| <= 1 && (r == [] <==> isRoot)
  {
    if isRoot then [] else ["sudo"]
  }

  /** The probe for the `semanage` executable. */
  function SemanageProbe(isRoot: bool): seq<string> {
    Sudo(isRoot) + ["which", "semanage"]
  }

  /** `set_pulp_manage_rsync(cfg, boolean)`: nothing when the probe for
      `semanage` fails; otherwise the command that modifies the
      `pulp_manage_rsync` boolean, with the probe's privilege prefix and
      `--on` or `--off` as the flag says. */
  function ManageRsync(isRoot: bool, on: bool, succeeds: seq<string> -> bool): (r: Option<seq<string>>)
    ensures r.None? <==> !succeeds(SemanageProbe(isRoot))
    ensures r.Some? ==> |r.value| >= 5 && r.value[|r.value| - 1] == "pulp_manage_rsync"
    ensures r.Some? ==> r.value[|r.value| - 2] == (if on then "--on" else "--off")
    ensures r.Some? ==> r.value[..|r.value| - 2] == SemanageProbe(isRoot)[..|Sudo(isRoot)|] + ["semanage", "boolean", "--modify"]
    ensures r.Some? ==> (r.value[0] == "sudo" <==> !isRoot)
  {
    if !succeeds(SemanageProbe(isRoot)) then None
    else
      var cmd := Sudo(isRoot) + ["semanage", "boolean", "--modify"] + [if on then "--on" else "--off"] + ["pulp_manage_rsync"];
      assert SemanageProbe(isRoot)[..|Sudo(isRoot)|] == Sudo(isRoot);
      assert cmd[..|cmd| - 2] == Sudo(isRoot) + ["semanage", "boolean", "--modify"];
      Some(cmd)
  }

  /** Turning the boolean on and off runs the same command but for the
      flag. */
  lemma ManageRsyncOnOff(isRoot: bool, succeeds: seq<string> -> bool)
    requires succeeds(SemanageProbe(isRoot))
    ensures |ManageRsync(isRoot, true, succeeds).value| == |ManageRsync(isRoot, false, succeeds).value|
    ensures forall k :: 0 <= k < |ManageRsync(isRoot, true, succeeds).value| && k != |ManageRsync(isRoot, true, succeeds).value| - 2 ==>
      ManageRsync(isRoot, true, succeeds).value[k] == ManageRsync(isRoot, false, succeeds).value[k]
  {
    var on := ManageRsync(isRoot, true, succeeds).value;
    var off := ManageRsync(isRoot, false, succeeds).value;
    assert on[..|on| - 2] == off[..|off| - 2];
    forall k | 0 <= k < |on| - 2 ensures on[k] == off[k] {
      assert on[k] == on[..|on| - 2][k];
      assert off[k] == off[..|off| - 2][k];
    }
  }
}
