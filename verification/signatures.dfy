/** The package helpers of the Pulp 2 signature tests
    (pulp_smash/tests/pulp2/rpm/api_v2/test_signatures_saved_for_packages.py):
    a package's filename from its URL, its unit type from its filename, and
    the unit search that finds the package in a repository. */
module Signatures {
  import opened Results
  import opened Strs
  import opened Json
  import opened Urls
  import Api
  import Pulp2Utils

  // ---------------------------------------------------------------------
  // _get_pkg_filename

  /** The schemes whose last path segment `urlparse` cuts `;params` from. */
  const UsesParams: set<string> := {"", "ftp", "hdl", "prospero", "http", "imap", "https", "shttp", "rtsp",
                                    "rtspu", "sip", "sips", "mms", "sftp", "tel"}

  /** The path without the parameters of its last segment: everything from
      the first ';' after the last '/' is dropped. */
  function DropParams(path: string): string {
    var i := LastIndexOf(path, '/');
    path[..i + 1] + Partition(path[i + 1..], ';').0
  }

  /** After a directory prefix (empty or ending in '/'), the last segment
      is whatever follows it. */
  lemma AfterDirectory(head: string, x: string)
    requires head == "" || head[|head| - 1] == '/'
    requires '/' !in x
    ensures AfterLast(head + x, '/') == x
  {
    if head == "" {
      assert head + x == x;
      AfterLastAbsent(x, '/');
    } else {
      var dir := head[..|head| - 1];
      assert head + x == dir + ['/'] + x;
      SplitWhole(x, '/');
      SplitConcat(dir, x, '/');
      SplitAtLast(dir + ['/'] + x, '/');
    }
  }

  /** Dropping the parameters cuts the last segment at its first ';'. */
  lemma DropParamsLast(path: string)
    ensures AfterLast(DropParams(path), '/') == Partition(AfterLast(path, '/'), ';').0
  {
    var i := LastIndexOf(path, '/');
    AfterLastAt(path, '/');
    var last := AfterLast(path, '/');
    var x := Partition(last, ';').0;
    assert '/' !in x by {
      PartitionPrefix(last, ';');
    }
    AfterDirectory(path[..i + 1], x);
  }

  /** `path.split('/')[-1]` of a path, its parameters dropped first when
      `params` holds: the last segment, without anything from its first ';'
      when parameters are cut. */
  function PathFilename(path: string, params: bool): (r: string)
    ensures '/' !in r
    ensures r == if params then Partition(AfterLast(path, '/'), ';').0 else AfterLast(path, '/')
  {
    var p := if params then DropParams(path) else path;
    assert params ==> AfterLast(p, '/') == Partition(AfterLast(path, '/'), ';').0 by {
      if params {
        DropParamsLast(path);
      }
    }
    SplitAtLast(p, '/');
    var parts := Split(p, '/');
    parts[|parts| - 1]
  }

  /** `_get_pkg_filename(pkg_url)`: the last segment of the URL's path as
      `urlparse` reads it, so with no '/' in it, and no ';' for the schemes
      that take parameters. */
  function PkgFilename(pkgUrl: string): (r: string)
    ensures '/' !in r
    ensures UrlSplit(pkgUrl).scheme in UsesParams ==> ';' !in r
    ensures r == PathFilename(UrlSplit(pkgUrl).path, UrlSplit(pkgUrl).scheme in UsesParams)
  {
    var parts := UrlSplit(pkgUrl);
    PathFilename(parts.path, parts.scheme in UsesParams)
  }

  /** A path whose last segment has no parameters ends in its filename. */
  lemma FilenameOfPath(dir: string, name: string, params: bool)
    requires '/' !in name && ';' !in name
    ensures PathFilename(dir + "/" + name, params) == name
  {
    var path := dir + "/" + name;
    SplitAtLast(path, '/');
    assert path == dir + ['/'] + name;
    SplitConcat(dir, name, '/');
    SplitWhole(name, '/');
    assert Partition(name, ';') == (name, false, "");
  }

  // ---------------------------------------------------------------------
  // _get_pkg_unit_type

  /** `_get_pkg_unit_type(pkg_filename)`: "srpm" when the next-to-last
      '.'-piece is "src", else the last piece; a filename without '.' has no
      next-to-last piece and raises `IndexError`. */
  function PkgUnitType(filename: string): (r: Result<string>)
    ensures r.Err? <==> '.' !in filename
    ensures r.Err? ==> r.error == IndexError
    ensures r.Ok? ==>
      r.value == if AfterLast(filename[..LastIndexOf(filename, '.')], '.') == "src" then "srpm"
                 else AfterLast(filename, '.')
  {
    var parts := Split(filename, '.');
    SplitAtLast(filename, '.');
    var suffix := if |parts| >= 2 then parts[|parts| - 2..] else parts;
    assert '.' in filename ==> suffix[0] == AfterLast(filename[..LastIndexOf(filename, '.')], '.') by {
      if '.' in filename {
        var head := filename[..LastIndexOf(filename, '.')];
        SplitAtLast(head, '.');
        assert parts == Split(head, '.') + [AfterLast(filename, '.')];
      }
    }
    if |suffix| < 2 then Err(IndexError)
    else if suffix[0] == "src" then Ok("srpm")
    else Ok(suffix[1])
  }

  /** A package filename `stem.mid.ext`: the unit type is "srpm" for a
      `src` architecture and the extension otherwise. */
  lemma {:induction false} UnitTypeOfName(stem: string, mid: string, ext: string)
    requires '.' !in mid && '.' !in ext
    ensures PkgUnitType(stem + "." + mid + "." + ext) == Ok(if mid == "src" then "srpm" else ext)
  {
    var f := stem + "." + mid + "." + ext;
    assert f == (stem + ['.'] + mid) + ['.'] + ext;
    SplitConcat(stem + ['.'] + mid, ext, '.');
    SplitConcat(stem, mid, '.');
    SplitWhole(mid, '.');
    SplitWhole(ext, '.');
    var parts := Split(f, '.');
    assert parts == Split(stem, '.') + [mid] + [ext];
    assert parts[|parts| - 2..] == [mid, ext];
  }

  // ---------------------------------------------------------------------
  // _find_unit

  /** The filename a unit is searched under: delta RPMs live under
      `drpms/` relative to the repository root. */
  function SearchName(filename: string, unitType: string): (r: string)
    ensures unitType == "drpm" ==> r == "drpms/" + filename
    ensures unitType != "drpm" ==> r == filename
  {
    if unitType == "drpm" then "drpms/" + filename else filename
  }

  /** The unit search criteria: units of the type whose filename is in
      the one-element list. */
  function FindCriteria(name: string, unitType: string): Json {
    JObj([("filters", JObj([("unit", JObj([("filename", JObj([("$in", JArr([JStr(name)]))]))]))])),
          ("type_ids", JArr([JStr(unitType)]))])
  }

  /** What Pulp reads out of criteria of this shape: the type ids and the
      filenames a unit's may be among. */
  function CriteriaLists(criteria: Json): Result<(seq<Json>, seq<Json>)> {
    var types :- Subscript(criteria, "type_ids");
    var filters :- Subscript(criteria, "filters");
    var unit :- Subscript(filters, "unit");
    var filename :- Subscript(unit, "filename");
    var ins :- Subscript(filename, "$in");
    if types.JArr? && ins.JArr? then Ok((types.items, ins.items)) else Err(TypeError("a list is expected"))
  }

  /** Criteria of this shape select a unit when its type is one of the type
      ids and its filename one of the `$in` filenames. */
  predicate Selects(criteria: Json, unitTypeId: string, filename: string) {
    var lists := CriteriaLists(criteria);
    lists.Ok? && JStr(unitTypeId) in lists.value.0 && JStr(filename) in lists.value.1
  }

  /** The search criteria select exactly the units of the type with the
      filename. */
  lemma FindCriteriaSelects(name: string, unitType: string, unitTypeId: string, filename: string)
    ensures Selects(FindCriteria(name, unitType), unitTypeId, filename) <==> unitTypeId == unitType && filename == name
  {
    var c := FindCriteria(name, unitType);
    GetTwo("filters", c.fields[0].1, "type_ids", c.fields[1].1, "type_ids");
    GetTwo("filters", c.fields[0].1, "type_ids", c.fields[1].1, "filters");
    assert CriteriaLists(c) == Ok(([JStr(unitType)], [JStr(name)]));
  }

  /** The search `_find_unit(repo_href, pkg_url)` makes: the repository's
      unit search for the package's unit type and filename, prefixed with
      `drpms/` for a delta RPM, decoded as JSON; the unit type lookup fails
      first for a filename without '.'. */
  function FindUnitSearch(repoHref: string, pkgUrl: string): (r: Result<Api.Call>)
    ensures r.Err? <==> '.' !in PkgFilename(pkgUrl)
    ensures r.Err? ==> r.error == IndexError
    ensures r.Ok? ==> r.value.verb == "POST" && r.value.url == UrlJoin(repoHref, "search/units/")
    ensures r.Ok? ==> r.value.handler == Api.JsonHandler
    ensures r.Ok? ==>
      var t := PkgUnitType(PkgFilename(pkgUrl)).value;
      r.value.body == Some(JObj([("criteria", FindCriteria(SearchName(PkgFilename(pkgUrl), t), t))]))
  {
    var filename := PkgFilename(pkgUrl);
    var unitType :- PkgUnitType(filename);
    var repo := JObj([("_href", JStr(repoHref))]);
    assert JoinArgAt(repo, "_href") == Ok(repoHref);
    Pulp2Utils.SearchUnits(repo, FindCriteria(SearchName(filename, unitType), unitType), None)
  }
}
