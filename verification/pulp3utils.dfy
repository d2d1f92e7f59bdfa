/** Helpers for testing Pulp 3 (pulp_smash/pulp3/utils.py): the version
    and plugin guards, the bodies of the sync, modify and publish
    requests, unit URLs, the repository version readers, the ordering of
    repository versions, and the generators of new resources.

    The server is an oracle: `get` maps an href to the decoded body a GET
    of it returns. Random names (`utils.uuid4()`) are parameters. */
module Pulp3Utils {
  import opened Results
  import opened Strs
  import opened Json
  import opened Versions
  import opened Urls
  import opened Seqs
  import Api

  // ---------------------------------------------------------------------
  // Guards

  /** `require_pulp_3(exc)`: raises unless 3 <= version < 4. */
  function RequirePulp3(version: Version): (r: Result<()>)
    ensures r.Ok? <==> Le(V(3), version) && Lt(version, V(4))
    ensures r.Err? ==> r.error.CallerException?
  {
    CompareFlip(version, V(3));
    if !(Le(V(3), version) && Lt(version, V(4))) then
      Err(CallerException("These tests are for Pulp 3, but Pulp " + Format(version) + " is under test."))
    else Ok(())
  }

  /** `get_plugins()` from the body of the status endpoint: the
      `component` of each entry under `versions`. */
  function GetPlugins(status: Json): (r: Result<set<Json>>)
    ensures r.Ok? <==>
      && Subscript(status, "versions").Ok?
      && PyIter(Subscript(status, "versions").value).Ok?
      && var entries := PyIter(Subscript(status, "versions").value).value;
         forall i :: 0 <= i < |entries| ==> Collectable(entries[i], "component")
    ensures r.Ok? ==>
      var entries := PyIter(Subscript(status, "versions").value).value;
      forall x :: x in r.value <==> exists i :: 0 <= i < |entries| && Subscript(entries[i], "component") == Ok(x)
    ensures Subscript(status, "versions").Ok? && PyIter(Subscript(status, "versions").value).Ok? ==>
      var entries := PyIter(Subscript(status, "versions").value).value;
      forall i :: FirstUnhashable(entries, "component", i) ==> r == Err(TypeError("unhashable type"))
  {
    var versions :- Subscript(status, "versions");
    var entries :- PyIter(versions);
    Collect(entries, "component")
  }

  /** `require_pulp_plugins(required_plugins, exc)`: raises exactly when a
      required plugin is not installed. */
  function RequirePulpPlugins(required: set<string>, status: Json): (r: Result<()>)
    ensures GetPlugins(status).Err? ==> r == Err(GetPlugins(status).error)
    ensures GetPlugins(status).Ok? ==> (r.Ok? <==> forall p :: p in required ==> JStr(p) in GetPlugins(status).value)
    ensures GetPlugins(status).Ok? && r.Err? ==> r.error.CallerException?
  {
    var installed :- GetPlugins(status);
    if Missing(required, installed) != {} then
      assert exists p :: p in required && JStr(p) !in installed by {
        var p :| p in Missing(required, installed);
      }
      Err(CallerException("The following plugins are required but not installed"))
    else
      assert forall p :: p in required ==> JStr(p) in installed by {
        forall p | p in required ensures JStr(p) in installed {
          assert p !in Missing(required, installed);
        }
      }
      Ok(())
  }

  // ---------------------------------------------------------------------
  // Requests

  /** `sync(cfg, remote, repo, **kwargs)`: posts the remote's href, with
      the keyword arguments over it, to the repository's sync action. The
      repository's `pulp_href` is read as `urljoin` reads it, so a null
      href posts to the bare `sync/`. */
  function Sync(remote: Json, repo: Json, kwargs: Dict<Json>): (r: Result<Api.Call>)
    requires DistinctKeys(kwargs)
    ensures r.Ok? <==> Subscript(remote, "pulp_href").Ok? && JoinArgAt(repo, "pulp_href").Ok?
    ensures Subscript(remote, "pulp_href").Ok? && JoinArgAt(repo, "pulp_href").Err? ==>
      r == Err(JoinArgAt(repo, "pulp_href").error)
    ensures r.Ok? ==> r.value.verb == "POST" && r.value.url == UrlJoin(JoinArgAt(repo, "pulp_href").value, "sync/")
    ensures r.Ok? && !Truthy(Subscript(repo, "pulp_href").value) ==> r.value.url == "sync/"
    ensures r.Ok? ==> r.value.body.Some? && r.value.body.value.JObj?
    ensures r.Ok? ==>
      forall k :: Get(r.value.body.value.fields, k) ==
        (if HasKey(kwargs, k) then Get(kwargs, k)
         else if k == "remote" then Some(Subscript(remote, "pulp_href").value)
         else None)
  {
    var remoteHref :- Subscript(remote, "pulp_href");
    var data := Overridden([("remote", remoteHref)], kwargs);
    var href :- JoinArgAt(repo, "pulp_href");
    assert forall k :: Get([("remote", remoteHref)], k) == if k == "remote" then Some(remoteHref) else None by {
      forall k ensures Get([("remote", remoteHref)], k) == if k == "remote" then Some(remoteHref) else None {
        if k != "remote" {
          assert [("remote", remoteHref)][1..] == [];
        }
      }
    }
    Ok(Api.Call("POST", UrlJoin(href, "sync/"), Some(JObj(data)), Api.SafeHandler))
  }

  /** `[content["pulp_href"] for content in units]` */
  function Hrefs(units: Json): (r: Result<Json>)
    ensures r.Ok? <==> PyIter(units).Ok? && Pluck(PyIter(units).value, "pulp_href").Ok?
    ensures r.Ok? ==> r == Ok(JArr(Pluck(PyIter(units).value, "pulp_href").value))
  {
    var items :- PyIter(units);
    var hrefs :- Pluck(items, "pulp_href");
    Ok(JArr(hrefs))
  }

  /** The units to remove: `["*"]` stands for all of them and is sent as
      given; any other list is sent as its hrefs. */
  function RemovedUnits(units: Json): (r: Result<Json>)
    ensures units == JArr([JStr("*")]) ==> r == Ok(units)
    ensures units != JArr([JStr("*")]) ==> r == Hrefs(units)
  {
    if units == JArr([JStr("*")]) then Ok(units) else Hrefs(units)
  }

  /** The parameters `modify_repo` posts: `add_content_units` when there
      are units to add, `remove_content_units` when there are units to
      remove, `base_version` when one is given; an empty or missing
      argument leaves its key out. */
  function ModifyParams(baseVersion: Json, addUnits: Json, removeUnits: Json): (r: Result<Dict<Json>>)
    ensures r.Ok? <==> (Truthy(addUnits) ==> Hrefs(addUnits).Ok?) && (Truthy(removeUnits) ==> RemovedUnits(removeUnits).Ok?)
    ensures r.Ok? ==> DistinctKeys(r.value)
    ensures r.Ok? ==> forall k :: HasKey(r.value, k) ==> k in ["add_content_units", "remove_content_units", "base_version"]
    ensures r.Ok? ==> (HasKey(r.value, "add_content_units") <==> Truthy(addUnits))
    ensures r.Ok? && Truthy(addUnits) ==> Get(r.value, "add_content_units") == Some(Hrefs(addUnits).value)
    ensures r.Ok? ==> (HasKey(r.value, "remove_content_units") <==> Truthy(removeUnits))
    ensures r.Ok? && Truthy(removeUnits) ==> Get(r.value, "remove_content_units") == Some(RemovedUnits(removeUnits).value)
    ensures r.Ok? ==> (HasKey(r.value, "base_version") <==> Truthy(baseVersion))
    ensures r.Ok? && Truthy(baseVersion) ==> Get(r.value, "base_version") == Some(baseVersion)
  {
    var added :- if Truthy(addUnits) then Hrefs(addUnits) else Ok(JNull);
    var removed :- if Truthy(removeUnits) then RemovedUnits(removeUnits) else Ok(JNull);
    var d1: Dict<Json> := if Truthy(addUnits) then Set([], "add_content_units", added) else [];
    var d2 := if Truthy(removeUnits) then Set(d1, "remove_content_units", removed) else d1;
    var d3 := if Truthy(baseVersion) then Set(d2, "base_version", baseVersion) else d2;
    ModifyParamsFacts(Truthy(addUnits), added, Truthy(removeUnits), removed, Truthy(baseVersion), baseVersion, d1, d2, d3);
    Ok(d3)
  }

  lemma ModifyParamsFacts(add: bool, added: Json, remove: bool, removed: Json, base: bool, baseVersion: Json,
                          d1: Dict<Json>, d2: Dict<Json>, d3: Dict<Json>)
    requires d1 == if add then Set([], "add_content_units", added) else []
    requires d2 == if remove then Set(d1, "remove_content_units", removed) else d1
    requires d3 == if base then Set(d2, "base_version", baseVersion) else d2
    ensures DistinctKeys(d3)
    ensures forall k :: HasKey(d3, k) ==> k in ["add_content_units", "remove_content_units", "base_version"]
    ensures Get(d3, "add_content_units") == if add then Some(added) else None
    ensures Get(d3, "remove_content_units") == if remove then Some(removed) else None
    ensures Get(d3, "base_version") == if base then Some(baseVersion) else None
  {
    var names := ["add_content_units", "remove_content_units", "base_version"];
    forall k ensures Get(d3, k) ==
      (if k == names[2] && base then Some(baseVersion)
       else if k == names[1] && remove then Some(removed)
       else if k == names[0] && add then Some(added)
       else None)
    {
      if add {
        SetGet([], "add_content_units", added, k);
      }
      if remove {
        SetGet(d1, "remove_content_units", removed, k);
      }
      if base {
        SetGet(d2, "base_version", baseVersion, k);
      }
    }
    if add {
      SetKeepsDistinct([], "add_content_units", added);
    }
    if remove {
      SetKeepsDistinct(d1, "remove_content_units", removed);
    }
    if base {
      SetKeepsDistinct(d2, "base_version", baseVersion);
    }
  }

  /** `modify_repo(cfg, repo, base_version, add_units, remove_units)`:
      posts the parameters to the repository's modify action, the
      repository's `pulp_href` read as `urljoin` reads it. */
  function ModifyRepo(repo: Json, baseVersion: Json, addUnits: Json, removeUnits: Json): (r: Result<Api.Call>)
    ensures r.Ok? <==> ModifyParams(baseVersion, addUnits, removeUnits).Ok? && JoinArgAt(repo, "pulp_href").Ok?
    ensures ModifyParams(baseVersion, addUnits, removeUnits).Ok? && JoinArgAt(repo, "pulp_href").Err? ==>
      r == Err(JoinArgAt(repo, "pulp_href").error)
    ensures r.Ok? ==> r.value.verb == "POST" && r.value.url == UrlJoin(JoinArgAt(repo, "pulp_href").value, "modify/")
    ensures r.Ok? && !Truthy(Subscript(repo, "pulp_href").value) ==> r.value.url == "modify/"
    ensures r.Ok? ==> r.value.body == Some(JObj(ModifyParams(baseVersion, addUnits, removeUnits).value))
  {
    var params :- ModifyParams(baseVersion, addUnits, removeUnits);
    var href :- JoinArgAt(repo, "pulp_href");
    Ok(Api.Call("POST", UrlJoin(href, "modify/"), Some(JObj(params)), Api.SafeHandler))
  }

  /** `build_unit_url(cfg, distribution, unit_path)`: the content host's
      base URL, `pulp/content`, the distribution's base path and the unit
      path, joined with slashes. */
  function BuildUnitUrl(contentBaseUrl: string, distribution: Json, unitPath: string): (r: Result<string>)
    ensures r.Ok? <==> SubscriptStr(distribution, "base_path").Ok?
    ensures r.Ok? ==>
      r.value == contentBaseUrl + "/pulp/content/" + SubscriptStr(distribution, "base_path").value + "/" + unitPath
  {
    var basePath :- SubscriptStr(distribution, "base_path");
    var fragments := [contentBaseUrl, "pulp/content", basePath, unitPath];
    assert Join(fragments, "/") == contentBaseUrl + "/pulp/content/" + basePath + "/" + unitPath by {
      JoinFour(contentBaseUrl, "pulp/content", basePath, unitPath, "/");
      assert "/" + "pulp/content" + "/" == "/pulp/content/";
    }
    Ok(Join(fragments, "/"))
  }

  /** The unit URL's last segments are the base path and the unit path,
      when neither holds a slash. */
  lemma UnitUrlSegments(contentBaseUrl: string, distribution: Json, unitPath: string)
    requires BuildUnitUrl(contentBaseUrl, distribution, unitPath).Ok?
    requires '/' !in SubscriptStr(distribution, "base_path").value && '/' !in unitPath
    ensures Split(BuildUnitUrl(contentBaseUrl, distribution, unitPath).value, '/')
         == Split(contentBaseUrl, '/') + ["pulp", "content", SubscriptStr(distribution, "base_path").value, unitPath]
  {
    var bp := SubscriptStr(distribution, "base_path").value;
    var url := BuildUnitUrl(contentBaseUrl, distribution, unitPath).value;
    var rest3 := bp + ['/'] + unitPath;
    var rest2 := "content" + ['/'] + rest3;
    var rest1 := "pulp" + ['/'] + rest2;
    assert url == contentBaseUrl + ['/'] + rest1 by {
      UnitUrlShape(contentBaseUrl, bp, unitPath);
    }
    assert Split(rest3, '/') == [bp, unitPath] by {
      SplitConcat(bp, unitPath, '/');
      SplitWhole(bp, '/');
      SplitWhole(unitPath, '/');
    }
    assert Split(rest2, '/') == ["content", bp, unitPath] by {
      SplitConcat("content", rest3, '/');
      SplitWhole("content", '/');
    }
    assert Split(rest1, '/') == ["pulp", "content", bp, unitPath] by {
      SplitConcat("pulp", rest2, '/');
      SplitWhole("pulp", '/');
    }
    SplitConcat(contentBaseUrl, rest1, '/');
  }

  /** The unit URL regrouped around its slashes. */
  lemma UnitUrlShape(base: string, bp: string, unitPath: string)
    ensures base + "/pulp/content/" + bp + "/" + unitPath
         == base + ['/'] + ("pulp" + ['/'] + ("content" + ['/'] + (bp + ['/'] + unitPath)))
  {
    var lhs := base + "/pulp/content/" + bp + "/" + unitPath;
    var rhs := base + ['/'] + ("pulp" + ['/'] + ("content" + ['/'] + (bp + ['/'] + unitPath)));
    assert |lhs| == |rhs|;
    forall i | 0 <= i < |lhs| ensures lhs[i] == rhs[i] {
      if i < |base| {
      } else if i < |base| + 14 {
      } else if i < |base| + 14 + |bp| {
      } else {
      }
    }
  }

  /** The body `publish` posts: the repository when the version is null
      (Python's `None`, also what an omitted argument is), else the
      version; never both. */
  function PublishBody(repo: Json, versionHref: Json): (r: Result<Dict<Json>>)
    ensures versionHref != JNull ==> r == Ok([("repository_version", versionHref)])
    ensures versionHref == JNull ==> (r.Ok? <==> Subscript(repo, "pulp_href").Ok?)
    ensures versionHref == JNull && r.Ok? ==> r.value == [("repository", Subscript(repo, "pulp_href").value)]
    ensures r.Ok? ==> |r.value| == 1 && (HasKey(r.value, "repository") <==> !HasKey(r.value, "repository_version"))
    ensures r.Ok? ==> Get(r.value, "repository_version") != Some(JNull)
  {
    if versionHref == JNull then
      var href :- Subscript(repo, "pulp_href");
      assert Keys([("repository", href)]) == ["repository"];
      Ok([("repository", href)])
    else
      assert Keys([("repository_version", versionHref)]) == ["repository_version"];
      Ok([("repository_version", versionHref)])
  }

  /** What `publish` reads back: the first resource created by the last of
      the spawned tasks. */
  function PublicationHref(tasks: seq<Json>): (r: Result<Json>)
    ensures |tasks| == 0 ==> r == Err(IndexError)
    ensures r.Ok? ==>
      exists created :: (Subscript(tasks[|tasks| - 1], "created_resources") == Ok(created)
        && Index(created, 0) == Ok(r.value))
    ensures |tasks| > 0 && Subscript(tasks[|tasks| - 1], "created_resources").Ok? ==>
      (r.Ok? <==> Index(Subscript(tasks[|tasks| - 1], "created_resources").value, 0).Ok?)
    ensures |tasks| > 0 && Subscript(tasks[|tasks| - 1], "created_resources").Err? ==>
      r == Err(Subscript(tasks[|tasks| - 1], "created_resources").error)
  {
    if |tasks| == 0 then Err(IndexError)
    else
      var created :- Subscript(tasks[|tasks| - 1], "created_resources");
      Index(created, 0)
  }

  /** `publish(cfg, publisher, repo, version_href)` up to the spawned
      tasks: the request that starts the publication. */
  function Publish(publisher: Json, repo: Json, versionHref: Json): (r: Result<Api.Call>)
    ensures r.Ok? <==> PublishBody(repo, versionHref).Ok? && JoinArgAt(publisher, "pulp_href").Ok?
    ensures PublishBody(repo, versionHref).Ok? && JoinArgAt(publisher, "pulp_href").Err? ==>
      r == Err(JoinArgAt(publisher, "pulp_href").error)
    ensures r.Ok? ==> r.value.verb == "POST" && r.value.url == UrlJoin(JoinArgAt(publisher, "pulp_href").value, "publish/")
    ensures r.Ok? && !Truthy(Subscript(publisher, "pulp_href").value) ==> r.value.url == "publish/"
    ensures r.Ok? ==> r.value.body == Some(JObj(PublishBody(repo, versionHref).value)) && r.value.handler == Api.JsonHandler
  {
    var body :- PublishBody(repo, versionHref);
    var href :- JoinArgAt(publisher, "pulp_href");
    Ok(Api.Call("POST", UrlJoin(href, "publish/"), Some(JObj(body)), Api.JsonHandler))
  }

  // ---------------------------------------------------------------------
  // Repository versions

  /** `version_href or repo["latest_version_href"]` */
  function VersionToRead(repo: Json, versionHref: Json): (r: Result<Json>)
    ensures Truthy(versionHref) ==> r == Ok(versionHref)
    ensures !Truthy(versionHref) ==> r == Subscript(repo, "latest_version_href")
  {
    if Truthy(versionHref) then Ok(versionHref) else Subscript(repo, "latest_version_href")
  }

  /** Each entry's value under `key`, passed through `f`, keyed as before:
      the rewriting of a content summary. */
  function MapEntries(fields: Dict<Json>, key: string, f: Json -> Json): (r: Result<Dict<Json>>)
    ensures r.Ok? <==> forall i :: 0 <= i < |fields| ==> Subscript(fields[i].1, key).Ok?
    ensures r.Ok? ==> Keys(r.value) == Keys(fields) && |r.value| == |fields|
    ensures r.Ok? ==> forall i :: 0 <= i < |fields| ==> r.value[i].1 == f(Subscript(fields[i].1, key).value)
    decreases |fields|
  {
    if |fields| == 0 then Ok([])
    else
      var first :- Subscript(fields[0].1, key);
      assert forall i :: 1 <= i < |fields| ==> fields[i] == fields[1..][i - 1];
      var rest :- MapEntries(fields[1..], key, f);
      var r := [(fields[0].0, f(first))] + rest;
      assert Keys(r) == [fields[0].0] + Keys(rest);
      assert Keys(fields) == [fields[0].0] + Keys(fields[1..]);
      Ok(r)
  }

  /** The field of a version's content summary (`present`, `added` or
      `removed`) as `get_content` reads it, through `.items()`. */
  function SummaryField(get: Json -> Json, version: Json, field: string): (r: Result<Dict<Json>>)
    ensures r.Ok? <==>
      && Subscript(get(version), "content_summary").Ok?
      && Subscript(Subscript(get(version), "content_summary").value, field).Ok?
      && Subscript(Subscript(get(version), "content_summary").value, field).value.JObj?
    ensures r.Ok? ==> Subscript(Subscript(get(version), "content_summary").value, field) == Ok(JObj(r.value))
    ensures
      (&& Subscript(get(version), "content_summary").Ok?
       && Subscript(Subscript(get(version), "content_summary").value, field).Ok?
       && !Subscript(Subscript(get(version), "content_summary").value, field).value.JObj?)
      ==> r == Err(AttributeError("'items'"))
  {
    var summary :- Subscript(get(version), "content_summary");
    var f :- Subscript(summary, field);
    if f.JObj? then Ok(f.fields) else Err(AttributeError("'items'"))
  }

  /** `get_content`, `get_added_content`, `get_removed_content`: no
      content without a version to read; else, for each content type in
      the version's summary field, what its href lists. */
  function GetContent(field: string, repo: Json, versionHref: Json, get: Json -> Json): (r: Result<Dict<Json>>)
    ensures VersionToRead(repo, versionHref) == Ok(JNull) ==> r == Ok([])
    ensures VersionToRead(repo, versionHref).Err? ==> r.Err?
    ensures r.Ok? && VersionToRead(repo, versionHref) != Ok(JNull) ==>
      var summary := SummaryField(get, VersionToRead(repo, versionHref).value, field);
      && summary.Ok?
      && Keys(r.value) == Keys(summary.value) && |r.value| == |summary.value|
      && (forall i :: 0 <= i < |summary.value| ==> Subscript(summary.value[i].1, "href").Ok?)
      && forall i :: 0 <= i < |r.value| ==> r.value[i].1 == get(Subscript(summary.value[i].1, "href").value)
    ensures VersionToRead(repo, versionHref).Ok? && VersionToRead(repo, versionHref) != Ok(JNull) ==>
      var summary := SummaryField(get, VersionToRead(repo, versionHref).value, field);
      (r.Ok? <==> summary.Ok? && forall i :: 0 <= i < |summary.value| ==> Subscript(summary.value[i].1, "href").Ok?)
  {
    var version :- VersionToRead(repo, versionHref);
    if version == JNull then Ok([])
    else
      var summary :- SummaryField(get, version, field);
      MapEntries(summary, "href", get)
  }

  /** The value under `content_summary[field]` in what `get` returns for
      the version. */
  function SummaryValue(get: Json -> Json, version: Json, field: string): Result<Json> {
    var summary :- Subscript(get(version), "content_summary");
    Subscript(summary, field)
  }

  /** `for key in to_return: to_return[key] = to_return[key]["count"]` on
      the summary field: a dict's entries are replaced by their counts in
      place. A value that is not iterable raises `TypeError`, and so does a
      non-empty string, whose characters cannot index it. An empty string
      comes back unchanged and a list is indexed by its own items; neither
      is modelled. */
  function SummaryCounts(v: Json): (r: Result<Dict<Json>>)
    ensures r.Ok? ==> v.JObj?
    ensures v.JObj? ==> (r.Ok? <==> forall i :: 0 <= i < |v.fields| ==> Subscript(v.fields[i].1, "count").Ok?)
    ensures r.Ok? ==>
      && Keys(r.value) == Keys(v.fields) && |r.value| == |v.fields|
      && forall i :: 0 <= i < |r.value| ==> Subscript(v.fields[i].1, "count") == Ok(r.value[i].1)
    ensures PyIter(v).Err? ==> r == Err(PyIter(v).error)
    ensures v.JStr? && v.s != "" ==> r.Err? && r.error.TypeError?
    ensures v == JStr("") || v.JArr? ==> r.Err? && r.error.NotModelled?
  {
    match v
    case JObj(fields) => MapEntries(fields, "count", x => x)
    case JStr(s) =>
      if s == "" then Err(NotModelled("an empty string as a content summary field"))
      else Err(TypeError("string indices must be integers"))
    case JArr(_) => Err(NotModelled("a list as a content summary field"))
    case _ => Err(PyIter(v).error)
  }

  /** `get_content_summary`, `get_added_content_summary`,
      `get_removed_content_summary`: nothing without a version to read;
      else each content type's count in the version's summary field. */
  function GetContentSummary(field: string, repo: Json, versionHref: Json, get: Json -> Json): (r: Result<Dict<Json>>)
    ensures VersionToRead(repo, versionHref) == Ok(JNull) ==> r == Ok([])
    ensures VersionToRead(repo, versionHref).Err? ==> r.Err?
    ensures r.Ok? && VersionToRead(repo, versionHref) != Ok(JNull) ==>
      var summary := SummaryField(get, VersionToRead(repo, versionHref).value, field);
      && summary.Ok?
      && Keys(r.value) == Keys(summary.value) && |r.value| == |summary.value|
      && forall i :: 0 <= i < |r.value| ==> Subscript(summary.value[i].1, "count") == Ok(r.value[i].1)
    ensures VersionToRead(repo, versionHref).Ok? && VersionToRead(repo, versionHref) != Ok(JNull) ==>
      var summary := SummaryField(get, VersionToRead(repo, versionHref).value, field);
      (r.Ok? <==> summary.Ok? && forall i :: 0 <= i < |summary.value| ==> Subscript(summary.value[i].1, "count").Ok?)
    ensures VersionToRead(repo, versionHref).Ok? && VersionToRead(repo, versionHref) != Ok(JNull) ==>
      var v := SummaryValue(get, VersionToRead(repo, versionHref).value, field);
      && (v.Err? ==> r == Err(v.error))
      && (v.Ok? && !v.value.JObj? && !v.value.JArr? && v.value != JStr("") ==> r.Err? && r.error.TypeError?)
      && (v.Ok? && (v.value.JArr? || v.value == JStr("")) ==> r.Err? && r.error.NotModelled?)
  {
    var version :- VersionToRead(repo, versionHref);
    if version == JNull then Ok([])
    else
      var counts :- SummaryValue(get, version, field);
      SummaryCounts(counts)
  }

  /** `delete_version(repo, version_href)` up to the spawned tasks: a
      `ValueError` without a version to delete, else the delete request.
      The client joins the version onto its base URL, so the version is
      read as `urljoin` reads it: a falsy version other than null deletes
      the base URL itself. */
  function DeleteVersion(repo: Json, versionHref: Json): (r: Result<Api.Call>)
    ensures VersionToRead(repo, versionHref) == Ok(JNull) ==> r.Err? && r.error.ValueError?
    ensures r.Ok? <==>
      VersionToRead(repo, versionHref).Ok? && VersionToRead(repo, versionHref).value != JNull
      && JoinArg(VersionToRead(repo, versionHref).value).Ok?
    ensures
      (&& VersionToRead(repo, versionHref).Ok? && VersionToRead(repo, versionHref).value != JNull
       && JoinArg(VersionToRead(repo, versionHref).value).Err?)
      ==> r == Err(JoinArg(VersionToRead(repo, versionHref).value).error)
    ensures r.Ok? ==> r.value.verb == "DELETE" && r.value.body.None? && r.value.handler == Api.JsonHandler
    ensures r.Ok? && VersionToRead(repo, versionHref).value.JStr? ==> r.value.url == VersionToRead(repo, versionHref).value.s
    ensures r.Ok? && !Truthy(VersionToRead(repo, versionHref).value) ==> r.value.url == ""
  {
    var version :- VersionToRead(repo, versionHref);
    if version == JNull then Err(ValueError("No version exists to be deleted."))
    else
      var path :- JoinArg(version);
      Ok(Api.Call("DELETE", path, None, Api.JsonHandler))
  }

  /** The sort key of `get_versions`: the integer in the next-to-last
      segment of the path of the version's href. */
  function VersionNumber(version: Json): (r: Result<int>)
    ensures SubscriptStr(version, "pulp_href").Err? ==> r == Err(SubscriptStr(version, "pulp_href").error)
    ensures SubscriptStr(version, "pulp_href").Ok? ==> r == PathNumber(UrlSplit(SubscriptStr(version, "pulp_href").value).path)
  {
    match SubscriptStr(version, "pulp_href")
    case Err(e) => Err(e)
    case Ok(href) => PathNumber(UrlSplit(href).path)
  }

  /** `int(path.split('/')[-2])`: the number in the next-to-last segment;
      a path without one raises. */
  function PathNumber(path: string): (r: Result<int>)
    ensures r.Ok? <==>
      var parts := Split(path, '/');
      |parts| >= 2 && ParseInt(parts[|parts| - 2]).Some?
    ensures r.Ok? ==>
      var parts := Split(path, '/');
      r.value == ParseInt(parts[|parts| - 2]).value
  {
    var parts := Split(path, '/');
    if |parts| < 2 then Err(IndexError)
    else
      match ParseInt(parts[|parts| - 2])
      case None => Err(ValueError("invalid literal for int() with base 10"))
      case Some(n) => Ok(n)
  }

  /** A version href as Pulp writes it, `<versions path>/<n>/`, sorts as
      version `n`. */
  lemma VersionNumberOfHref(versionsPath: string, n: nat)
    requires PlainPath(versionsPath + "/" + NatToString(n) + "/")
    ensures VersionNumber(JObj([("pulp_href", JStr(versionsPath + "/" + NatToString(n) + "/"))])) == Ok(n)
  {
    var href := versionsPath + "/" + NatToString(n) + "/";
    assert SubscriptStr(JObj([("pulp_href", JStr(href))]), "pulp_href") == Ok(href);
    assert UrlSplit(href).path == href by {
      SplitPlainPath(href);
    }
    PathNumberOfDigits(versionsPath, n);
  }

  /** `<path>/<n>/` has the number `n` in its next-to-last segment. */
  lemma PathNumberOfDigits(versionsPath: string, n: nat)
    ensures PathNumber(versionsPath + "/" + NatToString(n) + "/") == Ok(n)
  {
    var digits := NatToString(n);
    var href := versionsPath + "/" + digits + "/";
    assert '/' !in digits by {
      forall k | 0 <= k < |digits| ensures digits[k] != '/' {
        assert IsDigit(digits[k]);
      }
    }
    assert Split(href, '/') == Split(versionsPath, '/') + [digits, ""] by {
      assert href == versionsPath + ['/'] + (digits + ['/'] + "");
      SplitConcat(versionsPath, digits + ['/'] + "", '/');
      SplitConcat(digits, "", '/');
      SplitWhole(digits, '/');
    }
    ParseIntOfIntToString(n);
  }

  /** `get_versions(repo, params)` from the versions the server lists:
      every version has a number, and they come back as the same versions
      in ascending order of it. */
  method GetVersions(versions: seq<Json>) returns (r: Result<seq<Json>>)
    ensures r.Ok? <==> forall i :: 0 <= i < |versions| ==> VersionNumber(versions[i]).Ok?
    ensures r.Err? ==>
      exists i :: (0 <= i < |versions| && VersionNumber(versions[i]) == Err(r.error)
        && forall j :: 0 <= j < i ==> VersionNumber(versions[j]).Ok?)
    ensures r.Ok? ==> multiset(r.value) == multiset(versions)
    ensures r.Ok? ==> SortedByKey(r.value, VersionNumber)
  {
    r := SortByChecked(versions, VersionNumber);
  }

  // ---------------------------------------------------------------------
  // Generators

  /** `gen_distribution(**kwargs)`: a random base path and name, with the
      keyword arguments over them. */
  function GenDistribution(basePath: string, name: string, kwargs: Dict<Json>): (r: Dict<Json>)
    requires DistinctKeys(kwargs)
    ensures
      forall k :: Get(r, k) ==
        (if HasKey(kwargs, k) then Get(kwargs, k)
         else if k == "base_path" then Some(JStr(basePath))
         else if k == "name" then Some(JStr(name))
         else None)
  {
    forall k ensures Get([("base_path", JStr(basePath)), ("name", JStr(name))], k)
      == if k == "base_path" then Some(JStr(basePath)) else if k == "name" then Some(JStr(name)) else None
    {
      GetTwo("base_path", JStr(basePath), "name", JStr(name), k);
    }
    Overridden([("base_path", JStr(basePath)), ("name", JStr(name))], kwargs)
  }

  /** `gen_remote(url, **kwargs)`: a random name and the URL, with the
      keyword arguments over them. */
  function GenRemote(name: string, url: string, kwargs: Dict<Json>): (r: Dict<Json>)
    requires DistinctKeys(kwargs)
    ensures
      forall k :: Get(r, k) ==
        (if HasKey(kwargs, k) then Get(kwargs, k)
         else if k == "name" then Some(JStr(name))
         else if k == "url" then Some(JStr(url))
         else None)
  {
    forall k ensures Get([("name", JStr(name)), ("url", JStr(url))], k)
      == if k == "name" then Some(JStr(name)) else if k == "url" then Some(JStr(url)) else None
    {
      GetTwo("name", JStr(name), "url", JStr(url), k);
    }
    Overridden([("name", JStr(name)), ("url", JStr(url))], kwargs)
  }

  /** `gen_publisher(**kwargs)` and `gen_repo(**kwargs)`: a random name,
      with the keyword arguments over it. */
  function GenNamed(name: string, kwargs: Dict<Json>): (r: Dict<Json>)
    requires DistinctKeys(kwargs)
    ensures
      forall k :: Get(r, k) ==
        (if HasKey(kwargs, k) then Get(kwargs, k)
         else if k == "name" then Some(JStr(name))
         else None)
  {
    forall k ensures Get([("name", JStr(name))], k) == if k == "name" then Some(JStr(name)) else None {
      assert [("name", JStr(name))][1..] == [];
    }
    Overridden([("name", JStr(name))], kwargs)
  }
}
