/** Test selection of `pulp_smash/selectors.py`: the bug statuses the Pulp
    issue tracker uses, reading a bug's target platform release, the bug
    cache, the `bug_is_fixed` decision and the `require` and `skip_if`
    guards.

    The tracker is never contacted: `fetch` tells what an HTTP GET of a bug
    would return, and the module-level cache is passed in and out. */
module Selectors {
  import opened Results
  import opened Json
  import opened Versions
  import Http

  /** Statuses of a bug whose fix is not yet in. */
  const UntestableBugs: set<string> := {"NEW", "ASSIGNED", "POST"}

  /** Statuses of a bug whose fix is in (or that will never get one). */
  const TestableBugs: set<string> := {"MODIFIED", "ON_QA", "VERIFIED", "CLOSED - COMPLETE",
    "CLOSED - CURRENTRELEASE", "CLOSED - DUPLICATE", "CLOSED - NOTABUG", "CLOSED - WONTFIX",
    "CLOSED - WORKSFORME"}

  /** No status is both testable and untestable. */
  lemma StatusSetsDisjoint()
    ensures TestableBugs * UntestableBugs == {}
  {
  }

  /** The custom field id of "Target Platform Release". */
  const TprFieldId := 4

  /** A custom field entry that carries the TPR id. */
  predicate IsTprField(f: Json) {
    f.JObj? && Get(f.fields, "id") == Some(JInt(TprFieldId))
  }

  /** The value of the first custom field with the TPR id, scanning in order;
      `None` when no entry has it. Reading the `id` of an entry that is not a
      dict, or has none, fails as Python's subscript does. */
  function TprOf(fields: seq<Json>): (r: Result<Option<Json>>)
    ensures r.Ok? && r.value.Some? ==>
      exists k :: (0 <= k < |fields| && IsTprField(fields[k]) && Some(r.value.value) == Get(fields[k].fields, "value")
        && forall j :: 0 <= j < k ==> !IsTprField(fields[j]))
    ensures r.Ok? && r.value.None? ==> forall j :: 0 <= j < |fields| ==> !IsTprField(fields[j])
    decreases |fields|
  {
    if |fields| == 0 then Ok(None)
    else
      var id :- Subscript(fields[0], "id");
      if id == JInt(TprFieldId) then
        var value :- Subscript(fields[0], "value");
        Ok(Some(value))
      else
        var rest :- TprOf(fields[1..]);
        assert forall j :: 1 <= j < |fields| ==> fields[j] == fields[1..][j - 1];
        if rest.Some? then
          var k :| 0 <= k < |fields[1..]| && IsTprField(fields[1..][k]) && Some(rest.value) == Get(fields[1..][k].fields, "value")
            && forall j :: 0 <= j < k ==> !IsTprField(fields[1..][j]);
          assert fields[k + 1] == fields[1..][k];
          Ok(rest)
        else Ok(rest)
  }

  /** A well-formed custom field: a dict with an `id` and a `value`. */
  predicate WellFormedField(f: Json) {
    f.JObj? && HasKey(f.fields, "id") && HasKey(f.fields, "value")
  }

  /** Where the TPR field sits does not matter: when it is the only entry
      with the TPR id, its value is found wherever it is. */
  lemma {:induction false} TprAnywhere(fields: seq<Json>, k: nat)
    requires forall j :: 0 <= j < |fields| ==> WellFormedField(fields[j])
    requires k < |fields| && IsTprField(fields[k])
    requires forall j :: 0 <= j < |fields| && j != k ==> !IsTprField(fields[j])
    ensures TprOf(fields) == Ok(Get(fields[k].fields, "value"))
    decreases |fields|
  {
    if k > 0 {
      var tail := fields[1..];
      assert forall j :: 0 <= j < |tail| ==> tail[j] == fields[j + 1];
      TprAnywhere(tail, k - 1);
      assert !IsTprField(fields[0]);
    }
  }

  /** With every entry well formed and none carrying the TPR id, nothing is found. */
  lemma {:induction false} TprAbsent(fields: seq<Json>)
    requires forall j :: 0 <= j < |fields| ==> WellFormedField(fields[j]) && !IsTprField(fields[j])
    ensures TprOf(fields) == Ok(None)
    decreases |fields|
  {
    if |fields| > 0 {
      var tail := fields[1..];
      assert forall j :: 0 <= j < |tail| ==> tail[j] == fields[j + 1];
      TprAbsent(tail);
    }
  }

  /** `bug_json['issue']`, when it is there. */
  function Issue(bug: Json): Option<Json> {
    match Subscript(bug, "issue")
    case Ok(issue) => Some(issue)
    case Err(_) => None
  }

  /** `bug_json['issue']['custom_fields']`, when it is there and is a list. */
  function CustomFields(bug: Json): Option<seq<Json>> {
    match Issue(bug)
    case None => None
    case Some(issue) =>
      match Subscript(issue, "custom_fields")
      case Ok(JArr(items)) => Some(items)
      case _ => None
  }

  /** `_get_tpr(bug_json)`: the value of custom field 4 of the issue;
      `BugTPRMissingError` naming the issue when there is none. */
  function GetTpr(bug: Json): (r: Result<Json>)
    ensures r.Ok? ==> CustomFields(bug).Some? && TprOf(CustomFields(bug).value) == Ok(Some(r.value))
    ensures CustomFields(bug).Some? && TprOf(CustomFields(bug).value).Ok? && TprOf(CustomFields(bug).value).value.Some? ==>
      r == Ok(TprOf(CustomFields(bug).value).value.value)
    ensures CustomFields(bug).Some? && TprOf(CustomFields(bug).value).Err? ==>
      r == Err(TprOf(CustomFields(bug).value).error)
    ensures CustomFields(bug).Some? && TprOf(CustomFields(bug).value) == Ok(None) ==>
      && r.Err?
      && (Subscript(Issue(bug).value, "id").Ok? && Subscript(Issue(bug).value, "id").value.JInt? ==>
            r.error == BugTPRMissingError(Subscript(Issue(bug).value, "id").value.i))
  {
    var issue :- Subscript(bug, "issue");
    var fields :- Subscript(issue, "custom_fields");
    if !fields.JArr? then Err(NotModelled("custom fields that are not a list"))
    else
      var found :- TprOf(fields.items);
      match found
      case Some(v) => Ok(v)
      case None =>
        var id :- Subscript(issue, "id");
        if id.JInt? then Err(BugTPRMissingError(id.i)) else Err(NotModelled("an issue id that is not an integer"))
  }

  /** `_convert_tpr(s)`: the empty string means version 0. */
  function ConvertTpr(s: string): (r: Result<Version>)
    ensures s == "" ==> r == Ok(V(0))
    ensures s != "" ==> r == ParseOrError(s)
  {
    if s == "" then Ok(V(0)) else ParseOrError(s)
  }

  /** `_Bug(status, target_platform_release)` */
  datatype Bug = Bug(status: string, tpr: Version)

  /** What fetching https://pulp.plan.io/issues/<id>.json gives: no
      connection, or a response with its status code and JSON body. */
  datatype Fetched = ConnectionFailed | Response(statusCode: int, body: Json)

  /** `isinstance(bug_id, int)`: integers, and booleans, which Python counts
      as integers (True is 1). */
  function BugIdOf(id: Json): (r: Option<int>)
    ensures r.Some? <==> id.JInt? || id.JBool?
    ensures id.JInt? ==> r == Some(id.i)
  {
    match id
    case JInt(i) => Some(i)
    case JBool(b) => Some(if b then 1 else 0)
    case _ => None
  }

  /** `bug_json['issue']['status']['name']` */
  function StatusOf(body: Json): Result<Json> {
    var issue :- Subscript(body, "issue");
    var status :- Subscript(issue, "status");
    Subscript(status, "name")
  }

  /** The bug a tracker body describes: `issue.status.name` and the
      converted TPR. It is read exactly when the status name is a string,
      the TPR is found and is a string, and it converts to a version. */
  function BugOf(body: Json): (r: Result<Bug>)
    ensures r.Ok? <==>
      && StatusOf(body).Ok? && StatusOf(body).value.JStr?
      && GetTpr(body).Ok? && GetTpr(body).value.JStr?
      && ConvertTpr(GetTpr(body).value.s).Ok?
    ensures r.Ok? ==> r.value.status == StatusOf(body).value.s
    ensures r.Ok? ==> r.value.tpr == ConvertTpr(GetTpr(body).value.s).value
  {
    var name :- StatusOf(body);
    if !name.JStr? then Err(NotModelled("a status name that is not a string"))
    else
      var tprValue :- GetTpr(body);
      if !tprValue.JStr? then Err(TypeError("expected string or bytes-like object"))
      else
        var tpr :- ConvertTpr(tprValue.s);
        Ok(Bug(name.s, tpr))
  }

  /** `_get_bug(bug_id)`: a non-integer id fails before anything is looked
      up; a cached id is answered from the cache; otherwise the bug is
      fetched, checked, stored in the cache and returned. */
  function GetBug(id: Json, cache: map<int, Bug>, fetch: int -> Fetched): (r: Result<(map<int, Bug>, Bug)>)
    ensures BugIdOf(id).None? ==> r.Err? && r.error.TypeError?
    ensures BugIdOf(id).Some? && BugIdOf(id).value in cache ==> r == Ok((cache, cache[BugIdOf(id).value]))
    ensures BugIdOf(id).Some? && BugIdOf(id).value !in cache ==>
      var n := BugIdOf(id).value;
      && (fetch(n).ConnectionFailed? ==> r == Err(ConnectionError))
      && (fetch(n).Response? && 400 <= fetch(n).statusCode < 600 ==> r == Err(HTTPError(fetch(n).statusCode)))
      && (r.Ok? ==> fetch(n).Response? && BugOf(fetch(n).body) == Ok(r.value.1) && r.value.0 == cache[n := r.value.1])
  {
    match BugIdOf(id)
    case None => Err(TypeError("Bug IDs should be integers."))
    case Some(n) =>
      if n in cache then Ok((cache, cache[n]))
      else
        match fetch(n)
        case ConnectionFailed => Err(ConnectionError)
        case Response(code, body) =>
          var _ :- Http.RaiseForStatus(code);
          var bug :- BugOf(body);
          Ok((cache[n := bug], bug))
  }

  /** Asking for a cached bug again fetches nothing: the answer is the same
      whatever the tracker would now say. */
  lemma GetBugCached(id: Json, cache: map<int, Bug>, fetch: int -> Fetched, later: int -> Fetched)
    requires GetBug(id, cache, fetch).Ok?
    ensures var (cache1, bug) := GetBug(id, cache, fetch).value;
      GetBug(id, cache1, later) == Ok((cache1, bug))
  {
  }

  /** The verdict on a known bug: unknown statuses raise; the bug is fixed
      iff its status is testable and its TPR is no later than the version. */
  function Verdict(bugId: int, bug: Bug, pulpVersion: Version): (r: Result<bool>)
    ensures r.Err? <==> bug.status !in TestableBugs + UntestableBugs
    ensures r.Err? ==> r.error == BugStatusUnknownError(bugId, bug.status)
    ensures r.Ok? ==> (r.value <==> bug.status in TestableBugs && Le(bug.tpr, pulpVersion))
    ensures bug.status in UntestableBugs ==> r == Ok(false)
  {
    StatusSetsDisjoint();
    if bug.status !in TestableBugs + UntestableBugs then Err(BugStatusUnknownError(bugId, bug.status))
    else Ok(bug.status in TestableBugs && Le(bug.tpr, pulpVersion))
  }

  /** `bug_is_fixed(bug_id, pulp_version)`. When the tracker cannot be
      reached the bug is taken to be testable. */
  function BugIsFixed(id: Json, pulpVersion: Version, cache: map<int, Bug>, fetch: int -> Fetched)
    : (r: Result<(map<int, Bug>, bool)>)
    ensures GetBug(id, cache, fetch) == Err(ConnectionError) ==> r == Ok((cache, true))
    ensures GetBug(id, cache, fetch).Err? && GetBug(id, cache, fetch) != Err(ConnectionError) ==>
      r == Err(GetBug(id, cache, fetch).error)
    ensures GetBug(id, cache, fetch).Ok? ==>
      var (cache1, bug) := GetBug(id, cache, fetch).value;
      && (r.Ok? <==> bug.status in TestableBugs + UntestableBugs)
      && (r.Ok? ==> r.value.0 == cache1 && (r.value.1 <==> bug.status in TestableBugs && Le(bug.tpr, pulpVersion)))
  {
    match GetBug(id, cache, fetch)
    case Err(ConnectionError) => Ok((cache, true))
    case Err(e) => Err(e)
    case Ok((cache1, bug)) =>
      var fixed :- Verdict(BugIdOf(id).value, bug, pulpVersion);
      Ok((cache1, fixed))
  }

  /** An untestable bug is never fixed, whatever the version. */
  lemma UntestableNeverFixed(id: Json, pulpVersion: Version, cache: map<int, Bug>, fetch: int -> Fetched)
    requires GetBug(id, cache, fetch).Ok? && GetBug(id, cache, fetch).value.1.status in UntestableBugs
    ensures BugIsFixed(id, pulpVersion, cache, fetch).Ok? && !BugIsFixed(id, pulpVersion, cache, fetch).value.1
  {
  }

  /** A testable bug that is fixed for one version is fixed for every later one. */
  lemma FixedStaysFixed(id: Json, v: Version, w: Version, cache: map<int, Bug>, fetch: int -> Fetched)
    requires BugIsFixed(id, v, cache, fetch).Ok? && BugIsFixed(id, v, cache, fetch).value.1
    requires GetBug(id, cache, fetch).Ok?
    requires Le(v, w)
    ensures BugIsFixed(id, w, cache, fetch).Ok? && BugIsFixed(id, w, cache, fetch).value.1
  {
    var bug := GetBug(id, cache, fetch).value.1;
    CompareTrans(bug.tpr, v, w);
  }

  /** `require(ver, exc)` around a test method: `exc` is raised when the
      configured version is older than `ver`; otherwise the method's own
      outcome is returned. */
  function Require<T>(ver: string, pulpVersion: Version, outcome: Result<T>): (r: Result<T>)
    ensures Parse(ver).None? ==> r == Err(InvalidVersion(ver))
    ensures Parse(ver).Some? && Lt(pulpVersion, Parse(ver).value) ==> r.Err? && r.error.CallerException?
    ensures Parse(ver).Some? && !Lt(pulpVersion, Parse(ver).value) ==> r == outcome
  {
    var required :- ParseOrError(ver);
    if Lt(pulpVersion, required) then
      Err(CallerException("This test requires Pulp " + ver + " or later, but Pulp " + Format(pulpVersion)
        + " is being tested. If this seems wrong, try checking the \"settings\" option in the Pulp Smash configuration file."))
    else outcome
  }

  /** `skip_if(func, var_name, result, exc)` around a test method, given the
      attribute's value: `exc` is raised exactly when `func(value) == result`. */
  function SkipIf<V, R(==), T>(func: V -> R, value: V, result: R, outcome: Result<T>): (r: Result<T>)
    ensures func(value) == result ==> r.Err? && r.error.CallerException?
    ensures func(value) != result ==> r == outcome
  {
    if func(value) == result then Err(CallerException("skipped")) else outcome
  }
}
