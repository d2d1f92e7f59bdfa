/** The API client of pulp_smash/api.py: checking call reports and task
    reports, the response handlers, how a request's arguments are put
    together, and polling a task tree until every task has ended.

    Nothing is sent: `send` says which response a request gets, and
    `server(url, k)` which response the `k`-th poll of a task URL gets.
    The polling functions take `urlOf`, the URL each task href is polled
    at; the response handlers give them `TaskUrl(baseUrl)`, the href
    joined onto the base URL. A task href is any JSON value: as in
    `urljoin`, a string is joined, a false one (null, `false`, `0`, an
    empty list or object) leaves the base URL, and any other one is a
    `TypeError`. */
module Api {
  import opened Results
  import opened Json
  import opened Urls
  import Http
  import Config
  import Strs

  // ---------------------------------------------------------------------
  // Call reports and task reports.

  /** `_check_call_report(call_report)`: the report's `error` must be null. */
  function CheckCallReport(callReport: Json): (r: Result<()>)
    ensures r.Ok? <==> Subscript(callReport, "error") == Ok(JNull)
    ensures Subscript(callReport, "error").Ok? && r.Err? ==> r.error == CallReportError
    ensures Subscript(callReport, "error").Err? ==> r == Err(Subscript(callReport, "error").error)
  {
    var error :- Subscript(callReport, "error");
    if error != JNull then Err(CallReportError) else Ok(())
  }

  /** The fields of a task report that must be null, in the order they
      are inspected. */
  const TaskFields: seq<string> := ["error", "exception", "traceback"]

  /** A task report whose `error`, `exception` and `traceback` are all
      present and null. */
  predicate TaskClean(task: Json) {
    forall i :: 0 <= i < |TaskFields| ==> Subscript(task, TaskFields[i]) == Ok(JNull)
  }

  /** `fields[i]` is the first of `fields` whose value in the task is set. */
  predicate FirstSet(task: Json, fields: seq<string>, i: int) {
    && 0 <= i < |fields|
    && Subscript(task, fields[i]).Ok? && Subscript(task, fields[i]).value != JNull
    && forall j :: 0 <= j < i ==> Subscript(task, fields[j]) == Ok(JNull)
  }

  /** Behind a null first field, the first set field of the rest is the
      first set field of all. */
  lemma FirstSetShifted(task: Json, fields: seq<string>, name: string)
    requires |fields| > 0 && Subscript(task, fields[0]) == Ok(JNull)
    requires exists i :: FirstSet(task, fields[1..], i) && fields[1..][i] == name
    ensures exists i :: FirstSet(task, fields, i) && fields[i] == name
  {
    var i :| FirstSet(task, fields[1..], i) && fields[1..][i] == name;
    assert fields[i + 1] == name;
    forall j | 0 <= j < i + 1 ensures Subscript(task, fields[j]) == Ok(JNull) {
      if j > 0 {
        assert fields[j] == fields[1..][j - 1];
      }
    }
    assert FirstSet(task, fields, i + 1);
  }

  /** The inner loop of `_check_tasks` for one task, over `fields`. */
  function CheckFields(task: Json, fields: seq<string>): (r: Result<()>)
    ensures r.Ok? <==> forall i :: 0 <= i < |fields| ==> Subscript(task, fields[i]) == Ok(JNull)
    ensures r.Err? && r.error.TaskReportError? ==>
      exists i :: FirstSet(task, fields, i) && fields[i] == r.error.field
    decreases |fields|
  {
    if |fields| == 0 then Ok(())
    else
      var value :- Subscript(task, fields[0]);
      if value != JNull then
        var href :- Subscript(task, "_href");
        var text :- PyStr(href);
        assert FirstSet(task, fields, 0);
        Err(TaskReportError(text, fields[0]))
      else
        var rest := CheckFields(task, fields[1..]);
        assert rest.Ok? <==> forall i :: 0 <= i < |fields| ==> Subscript(task, fields[i]) == Ok(JNull) by {
          assert forall i :: 1 <= i < |fields| ==> fields[i] == fields[1..][i - 1];
        }
        assert rest.Err? && rest.error.TaskReportError? ==>
          exists i :: FirstSet(task, fields, i) && fields[i] == rest.error.field by {
          if rest.Err? && rest.error.TaskReportError? {
            FirstSetShifted(task, fields, rest.error.field);
          }
        }
        rest
  }

  /** `_check_tasks` for one task: it passes exactly when it is clean, and a
      report error names the first offending field. */
  function CheckTask(task: Json): (r: Result<()>)
    ensures r.Ok? <==> TaskClean(task)
    ensures r.Err? && r.error.TaskReportError? ==>
      exists i :: 0 <= i < |TaskFields| && TaskFields[i] == r.error.field
        && Subscript(task, TaskFields[i]).Ok? && Subscript(task, TaskFields[i]).value != JNull
        && forall j :: 0 <= j < i ==> Subscript(task, TaskFields[j]) == Ok(JNull)
  {
    CheckFields(task, TaskFields)
  }

  /** A failing task found after a clean first task is found in the whole
      list, one place further on. */
  lemma FailingTaskShifted(tasks: seq<Json>, failure: Result<()>)
    requires |tasks| > 0 && TaskClean(tasks[0])
    requires
      exists i :: 0 <= i < |tasks[1..]| && CheckTask(tasks[1..][i]) == failure
        && (forall j :: 0 <= j < i ==> TaskClean(tasks[1..][j]))
    ensures
      exists i :: 0 <= i < |tasks| && CheckTask(tasks[i]) == failure
        && (forall j :: 0 <= j < i ==> TaskClean(tasks[j]))
  {
    var i :| 0 <= i < |tasks[1..]| && CheckTask(tasks[1..][i]) == failure
      && forall j :: 0 <= j < i ==> TaskClean(tasks[1..][j]);
    assert CheckTask(tasks[i + 1]) == failure;
    forall j | 0 <= j < i + 1 ensures TaskClean(tasks[j]) {
      if j > 0 {
        assert tasks[j] == tasks[1..][j - 1];
      }
    }
  }

  /** Behind a clean first task, every task is clean exactly when every
      later one is. */
  lemma AllCleanCons(tasks: seq<Json>)
    requires |tasks| > 0 && TaskClean(tasks[0])
    ensures (forall i :: 0 <= i < |tasks| ==> TaskClean(tasks[i])) <==>
      forall i :: 0 <= i < |tasks[1..]| ==> TaskClean(tasks[1..][i])
  {
    assert forall i :: 1 <= i < |tasks| ==> tasks[i] == tasks[1..][i - 1];
  }

  /** `_check_tasks(tasks)`: tasks are inspected in order, and the first
      task that is not clean decides the error. */
  function CheckTasks(tasks: seq<Json>): (r: Result<()>)
    ensures r.Ok? <==> forall i :: 0 <= i < |tasks| ==> TaskClean(tasks[i])
    ensures r.Err? ==>
      exists i :: 0 <= i < |tasks| && CheckTask(tasks[i]) == r
        && (forall j :: 0 <= j < i ==> TaskClean(tasks[j]))
    decreases |tasks|
  {
    if |tasks| == 0 then Ok(())
    else
      var first := CheckTask(tasks[0]);
      if first.Err? then first
      else
        var rest := CheckTasks(tasks[1..]);
        AllCleanCons(tasks);
        assert rest.Err? ==>
          exists i :: 0 <= i < |tasks| && CheckTask(tasks[i]) == rest
            && (forall j :: 0 <= j < i ==> TaskClean(tasks[j])) by {
          if rest.Err? {
            FailingTaskShifted(tasks, rest);
          }
        }
        rest
  }

  // ---------------------------------------------------------------------
  // Polling tasks.

  /** `poll_limit` */
  const PollLimit: nat := 24

  /** `_TASK_END_STATES` */
  const EndStates: seq<Json> := [JStr("canceled"), JStr("error"), JStr("finished"), JStr("skipped"), JStr("timed out")]

  /** A task body whose `state` is one of the end states. */
  predicate Ended(attrs: Json) {
    Subscript(attrs, "state").Ok? && Subscript(attrs, "state").value in EndStates
  }

  /** A poll whose response shows the task still running. */
  predicate Running(poll: Http.Response) {
    !(400 <= poll.statusCode < 600) && Subscript(poll.body, "state").Ok? && !Ended(poll.body)
  }

  /** The polling loop of `poll_task` for one task, from its `k`-th poll:
      the first poll that shows the task ended gives its body; a poll that
      fails gives its error; and the task times out when the poll counter,
      bumped after each running poll, passes the limit. */
  function PollOne(url: string, href: string, server: (string, nat) -> Http.Response, k: nat): (r: Result<Json>)
    requires k <= PollLimit
    ensures r == Err(TaskTimedOutError(href)) <==> forall j :: k <= j <= PollLimit ==> Running(server(url, j))
    ensures r.Ok? ==> Ended(r.value)
    ensures r.Ok? ==>
      exists j :: k <= j <= PollLimit && server(url, j).body == r.value
        && (forall m :: k <= m < j ==> Running(server(url, m)))
    decreases PollLimit - k
  {
    var _ :- Http.RaiseForStatus(server(url, k).statusCode);
    var attrs := server(url, k).body;
    var state :- Subscript(attrs, "state");
    if state in EndStates then
      assert server(url, k).body == attrs;
      Ok(attrs)
    else if k + 1 > PollLimit then Err(TaskTimedOutError(href))
    else
      var r := PollOne(url, href, server, k + 1);
      assert Running(server(url, k));
      assert r.Ok? ==>
        exists j :: k <= j <= PollLimit && server(url, j).body == r.value
          && (forall m :: k <= m < j ==> Running(server(url, m))) by {
        if r.Ok? {
          var j :| k + 1 <= j <= PollLimit && server(url, j).body == r.value
            && (forall m :: k + 1 <= m < j ==> Running(server(url, m)));
          assert forall m :: k <= m < j ==> Running(server(url, m));
        }
      }
      r
  }

  /** Where a task is polled: its href joined onto the base URL. Polling
      takes this mapping as `urlOf`. */
  function TaskUrl(baseUrl: string): (string -> string) {
    (href: string) => UrlJoin(baseUrl, href)
  }

  /** The tasks a task body says it spawned: `attrs["spawned_tasks"]`,
      iterated. */
  function Spawned(attrs: Json): (r: Result<seq<Json>>)
    ensures r.Ok? <==> Subscript(attrs, "spawned_tasks").Ok? && PyIter(Subscript(attrs, "spawned_tasks").value).Ok?
  {
    var spawned :- Subscript(attrs, "spawned_tasks");
    PyIter(spawned)
  }

  /** A spawned task with an `_href`. */
  predicate HasHref(task: Json) {
    Subscript(task, "_href").Ok?
  }

  /** The `_href` of such a task. */
  function HrefOf(task: Json): Json
    requires HasHref(task)
  {
    Subscript(task, "_href").value
  }

  /** `str(href)`, as the timeout error names a task whose href can be
      joined. */
  function HrefText(href: Json): (r: string)
    requires JoinArg(href).Ok?
    ensures href.JStr? ==> r == href.s
  {
    PyStr(href).value
  }

  /** The first poll of a task: a href that cannot be joined onto the base
      URL fails as `urljoin` does; otherwise the task is polled at the
      joined URL. */
  function FirstPoll(urlOf: string -> string, href: Json, server: (string, nat) -> Http.Response): Result<Json> {
    var path :- JoinArg(href);
    PollOne(urlOf(path), HrefText(href), server, 0)
  }

  /** `poll_task(server_config, href)` with the task tree cut off below
      `depth` levels of spawned tasks: the task's final body first, then
      the final bodies of its spawned tasks and theirs, depth first. It
      succeeds exactly when the task ends, its spawned tasks can be read
      from its final body, and polling them succeeds. */
  function PollTask(urlOf: string -> string, href: Json, server: (string, nat) -> Http.Response, depth: nat)
    : (r: Result<seq<Json>>)
    ensures JoinArg(href).Err? ==> r == Err(JoinArg(href).error)
    ensures FirstPoll(urlOf, href, server).Err? ==> r == Err(FirstPoll(urlOf, href, server).error)
    ensures r.Ok? ==> |r.value| >= 1 && r.value[0] == FirstPoll(urlOf, href, server).value
    ensures r.Ok? ==> forall i :: 0 <= i < |r.value| ==> Ended(r.value[i])
    decreases depth, 1
  {
    var attrs :- FirstPoll(urlOf, href, server);
    var children :- Spawned(attrs);
    var rest :- PollChildren(urlOf, children, server, depth);
    EndedConcat([attrs], rest);
    Ok([attrs] + rest)
  }

  /** Polling a task succeeds exactly when the task ends, its spawned
      tasks can be read from its final body, and polling them succeeds;
      the final body then comes before theirs. */
  lemma PollTaskShape(urlOf: string -> string, href: Json, server: (string, nat) -> Http.Response, depth: nat)
    ensures PollTask(urlOf, href, server, depth).Ok? <==>
      var attrs := FirstPoll(urlOf, href, server);
      attrs.Ok? && Spawned(attrs.value).Ok? && PollChildren(urlOf, Spawned(attrs.value).value, server, depth).Ok?
    ensures PollTask(urlOf, href, server, depth).Ok? ==>
      var attrs := FirstPoll(urlOf, href, server).value;
      PollTask(urlOf, href, server, depth).value == [attrs] + PollChildren(urlOf, Spawned(attrs).value, server, depth).value
  {
  }

  /** Polls each spawned task in turn, all of the first one's tree before
      the second one. */
  function PollChildren(urlOf: string -> string, tasks: seq<Json>, server: (string, nat) -> Http.Response, depth: nat)
    : (r: Result<seq<Json>>)
    ensures r.Ok? ==> |r.value| >= |tasks|
    ensures r.Ok? ==> forall i :: 0 <= i < |r.value| ==> Ended(r.value[i])
    decreases depth, 0, |tasks|
  {
    if |tasks| == 0 then Ok([])
    else if depth == 0 then Err(NotModelled("spawned tasks below the depth bound"))
    else
      var href :- Subscript(tasks[0], "_href");
      var first :- PollTask(urlOf, href, server, depth - 1);
      var rest :- PollChildren(urlOf, tasks[1..], server, depth);
      EndedConcat(first, rest);
      Ok(first + rest)
  }

  /** A spawned task that lies within the depth bound, has an `_href`,
      and is polled successfully. */
  predicate ChildOk(urlOf: string -> string, task: Json, server: (string, nat) -> Http.Response, depth: nat) {
    depth > 0 && HasHref(task) && PollTask(urlOf, HrefOf(task), server, depth - 1).Ok?
  }

  /** Polling spawned tasks succeeds exactly when every one of them does. */
  lemma {:induction false} PollChildrenOk(urlOf: string -> string, tasks: seq<Json>, server: (string, nat) -> Http.Response, depth: nat)
    ensures PollChildren(urlOf, tasks, server, depth).Ok? <==>
      forall i :: 0 <= i < |tasks| ==> ChildOk(urlOf, tasks[i], server, depth)
    decreases |tasks|
  {
    if |tasks| > 0 {
      PollChildrenCons(urlOf, tasks, server, depth);
      if ChildOk(urlOf, tasks[0], server, depth) {
        PollChildrenOk(urlOf, tasks[1..], server, depth);
        AllChildOkCons(urlOf, tasks, server, depth);
      }
    }
  }

  /** Behind a first task that is polled successfully, every task is
      exactly when every later one is. */
  lemma AllChildOkCons(urlOf: string -> string, tasks: seq<Json>, server: (string, nat) -> Http.Response, depth: nat)
    requires |tasks| > 0 && ChildOk(urlOf, tasks[0], server, depth)
    ensures (forall i :: 0 <= i < |tasks| ==> ChildOk(urlOf, tasks[i], server, depth)) <==>
      forall i :: 0 <= i < |tasks[1..]| ==> ChildOk(urlOf, tasks[1..][i], server, depth)
  {
    assert forall i :: 1 <= i < |tasks| ==> tasks[i] == tasks[1..][i - 1];
  }

  /** Polling a list of spawned tasks is polling its two halves: it
      succeeds when both do, and then lists the first half's bodies before
      the second half's. */
  lemma PollChildrenConcat(urlOf: string -> string, a: seq<Json>, b: seq<Json>,
                            server: (string, nat) -> Http.Response, depth: nat)
    ensures PollChildren(urlOf, a + b, server, depth).Ok? <==>
      PollChildren(urlOf, a, server, depth).Ok? && PollChildren(urlOf, b, server, depth).Ok?
    ensures PollChildren(urlOf, a + b, server, depth).Ok? ==>
      PollChildren(urlOf, a + b, server, depth).value
        == PollChildren(urlOf, a, server, depth).value + PollChildren(urlOf, b, server, depth).value
  {
    PollChildrenConcatOk(urlOf, a, b, server, depth);
    if PollChildren(urlOf, a + b, server, depth).Ok? {
      PollChildrenConcatValue(urlOf, a, b, server, depth);
    }
  }

  /** Polling two lists of spawned tasks one after the other succeeds
      exactly when polling each succeeds. */
  lemma {:induction false} PollChildrenConcatOk(urlOf: string -> string, a: seq<Json>, b: seq<Json>,
                                                server: (string, nat) -> Http.Response, depth: nat)
    ensures PollChildren(urlOf, a + b, server, depth).Ok? <==>
      PollChildren(urlOf, a, server, depth).Ok? && PollChildren(urlOf, b, server, depth).Ok?
    decreases |a|
  {
    if |a| == 0 {
      assert a + b == b;
    } else {
      PollChildrenConcatOk(urlOf, a[1..], b, server, depth);
      Strs.ConcatTail(a, b);
      PollChildrenCons(urlOf, a, server, depth);
      PollChildrenCons(urlOf, a + b, server, depth);
    }
  }

  /** When both polls succeed, the bodies of polling two lists one after
      the other are the bodies of the first list, then of the second. */
  lemma {:induction false} PollChildrenConcatValue(urlOf: string -> string, a: seq<Json>, b: seq<Json>,
                                                   server: (string, nat) -> Http.Response, depth: nat)
    requires PollChildren(urlOf, a, server, depth).Ok? && PollChildren(urlOf, b, server, depth).Ok?
    ensures PollChildren(urlOf, a + b, server, depth).Ok?
    ensures PollChildren(urlOf, a + b, server, depth).value
        == PollChildren(urlOf, a, server, depth).value + PollChildren(urlOf, b, server, depth).value
    decreases |a|
  {
    if |a| == 0 {
      assert a + b == b;
    } else {
      PollChildrenCons(urlOf, a, server, depth);
      var first := PollTask(urlOf, HrefOf(a[0]), server, depth - 1).value;
      var rest := PollChildren(urlOf, a[1..], server, depth).value;
      PollChildrenConcatValue(urlOf, a[1..], b, server, depth);
      Strs.ConcatTail(a, b);
      PollChildrenCons(urlOf, a + b, server, depth);
      assert ChildOk(urlOf, (a + b)[0], server, depth);
      assert PollChildren(urlOf, a + b, server, depth).Ok?;
      assert PollChildren(urlOf, a, server, depth).value == first + rest;
      assert PollChildren(urlOf, a + b, server, depth).value == first + PollChildren(urlOf, a[1..] + b, server, depth).value;
      Strs.AppendAssoc(first, rest, PollChildren(urlOf, b, server, depth).value);
    }
  }

  /** One step of polling spawned tasks: the first task's poll, when it
      can be made, comes before the rest; otherwise polling fails. */
  lemma PollChildrenCons(urlOf: string -> string, tasks: seq<Json>, server: (string, nat) -> Http.Response, depth: nat)
    requires |tasks| > 0
    ensures !ChildOk(urlOf, tasks[0], server, depth) ==> PollChildren(urlOf, tasks, server, depth).Err?
    ensures ChildOk(urlOf, tasks[0], server, depth) ==>
      (PollChildren(urlOf, tasks, server, depth).Ok? <==> PollChildren(urlOf, tasks[1..], server, depth).Ok?)
    ensures ChildOk(urlOf, tasks[0], server, depth) && PollChildren(urlOf, tasks, server, depth).Ok? ==>
      PollChildren(urlOf, tasks, server, depth).value
        == PollTask(urlOf, HrefOf(tasks[0]), server, depth - 1).value + PollChildren(urlOf, tasks[1..], server, depth).value
  {
  }

  /** Polling a single spawned task within the depth bound is polling its
      `_href`. */
  lemma PollChildrenOne(urlOf: string -> string, task: Json, server: (string, nat) -> Http.Response, depth: nat)
    requires depth > 0 && HasHref(task)
    ensures PollChildren(urlOf, [task], server, depth) == PollTask(urlOf, HrefOf(task), server, depth - 1)
  {
    assert [task][1..] == [];
    var first := PollTask(urlOf, HrefOf(task), server, depth - 1);
    if first.Ok? {
      assert first.value + [] == first.value;
    }
  }

  /** A successful poll of spawned tasks, cut at `i`: both parts succeed,
      and their bodies, one list after the other, are the whole. */
  lemma PollChildrenSplit(urlOf: string -> string, tasks: seq<Json>, server: (string, nat) -> Http.Response, depth: nat, i: nat)
    requires PollChildren(urlOf, tasks, server, depth).Ok? && i <= |tasks|
    ensures PollChildren(urlOf, tasks[..i], server, depth).Ok? && PollChildren(urlOf, tasks[i..], server, depth).Ok?
    ensures PollChildren(urlOf, tasks, server, depth).value
      == PollChildren(urlOf, tasks[..i], server, depth).value + PollChildren(urlOf, tasks[i..], server, depth).value
  {
    Strs.TakeDrop(tasks, i);
    PollChildrenConcat(urlOf, tasks[..i], tasks[i..], server, depth);
  }

  /** A successful poll of spawned tasks lists the first task's tree, then
      the rest's. */
  lemma PollChildrenFirst(urlOf: string -> string, tasks: seq<Json>, server: (string, nat) -> Http.Response, depth: nat)
    requires PollChildren(urlOf, tasks, server, depth).Ok? && |tasks| > 0
    ensures ChildOk(urlOf, tasks[0], server, depth) && PollChildren(urlOf, tasks[1..], server, depth).Ok?
    ensures PollChildren(urlOf, tasks, server, depth).value
      == PollTask(urlOf, HrefOf(tasks[0]), server, depth - 1).value + PollChildren(urlOf, tasks[1..], server, depth).value
  {
  }

  /** Two lists of ended task bodies, one after the other. */
  lemma EndedConcat(a: seq<Json>, b: seq<Json>)
    requires forall i :: 0 <= i < |a| ==> Ended(a[i])
    requires forall i :: 0 <= i < |b| ==> Ended(b[i])
    ensures forall i :: 0 <= i < |a + b| ==> Ended((a + b)[i])
  {
    forall i | 0 <= i < |a + b| ensures Ended((a + b)[i]) {
      if i >= |a| {
        assert (a + b)[i] == b[i - |a|];
      }
    }
  }

  /** When polling spawned tasks succeeds, the `i`-th task is polled
      successfully, and its tree follows the trees of the tasks before it
      and precedes the trees of those after it. */
  lemma PollChildrenAt(urlOf: string -> string, tasks: seq<Json>, server: (string, nat) -> Http.Response, depth: nat, i: nat)
    requires PollChildren(urlOf, tasks, server, depth).Ok? && i < |tasks|
    ensures ChildOk(urlOf, tasks[i], server, depth)
    ensures PollChildren(urlOf, tasks[..i], server, depth).Ok? && PollChildren(urlOf, tasks[i + 1..], server, depth).Ok?
    ensures PollChildren(urlOf, tasks, server, depth).value
      == PollChildren(urlOf, tasks[..i], server, depth).value
         + PollTask(urlOf, HrefOf(tasks[i]), server, depth - 1).value
         + PollChildren(urlOf, tasks[i + 1..], server, depth).value
  {
    PollChildrenSplit(urlOf, tasks, server, depth, i);
    var later := tasks[i..];
    PollChildrenFirst(urlOf, later, server, depth);
    assert later[0] == tasks[i] && later[1..] == tasks[i + 1..];
    Strs.AppendAssoc(PollChildren(urlOf, tasks[..i], server, depth).value,
      PollTask(urlOf, HrefOf(tasks[i]), server, depth - 1).value,
      PollChildren(urlOf, tasks[i + 1..], server, depth).value);
  }

  /** Depth first: when a task's polling succeeds, its `i`-th spawned task
      is polled successfully, and its whole tree, its own final body first,
      follows the task's final body and the trees of the spawned tasks
      before it, and precedes the trees of those after it. */
  lemma PollTaskDepthFirst(urlOf: string -> string, href: Json, server: (string, nat) -> Http.Response, depth: nat, i: nat)
    requires PollTask(urlOf, href, server, depth).Ok?
    requires i < |Spawned(FirstPoll(urlOf, href, server).value).value|
    ensures
      var attrs := FirstPoll(urlOf, href, server).value;
      var children := Spawned(attrs).value;
      && ChildOk(urlOf, children[i], server, depth)
      && PollChildren(urlOf, children[..i], server, depth).Ok?
      && PollChildren(urlOf, children[i + 1..], server, depth).Ok?
      && PollTask(urlOf, HrefOf(children[i]), server, depth - 1).value[0]
           == FirstPoll(urlOf, HrefOf(children[i]), server).value
      && PollTask(urlOf, href, server, depth).value
           == [attrs] + PollChildren(urlOf, children[..i], server, depth).value
              + PollTask(urlOf, HrefOf(children[i]), server, depth - 1).value
              + PollChildren(urlOf, children[i + 1..], server, depth).value
  {
    var attrs := FirstPoll(urlOf, href, server).value;
    var children := Spawned(attrs).value;
    PollTaskShape(urlOf, href, server, depth);
    PollChildrenAt(urlOf, children, server, depth, i);
    var before := PollChildren(urlOf, children[..i], server, depth).value;
    var own := PollTask(urlOf, HrefOf(children[i]), server, depth - 1).value;
    var after := PollChildren(urlOf, children[i + 1..], server, depth).value;
    Strs.AppendAssoc([attrs], before + own, after);
    Strs.AppendAssoc([attrs], before, own);
  }

  /** `poll_spawned_tasks(server_config, call_report)`: the call report's
      spawned tasks, polled in order; a report without a list of spawned
      tasks fails as its lookup does. */
  function PollSpawnedTasks(urlOf: string -> string, callReport: Json, server: (string, nat) -> Http.Response, depth: nat)
    : (r: Result<seq<Json>>)
    ensures Spawned(callReport).Err? ==> r == Err(Spawned(callReport).error)
    ensures Spawned(callReport).Ok? ==> r == PollChildren(urlOf, Spawned(callReport).value, server, depth)
    ensures r.Ok? ==> forall i :: 0 <= i < |r.value| ==> Ended(r.value[i])
  {
    var tasks :- Spawned(callReport);
    PollChildren(urlOf, tasks, server, depth)
  }

  /** A task that ends within the limit, with no spawned tasks, is polled
      to exactly its final body. */
  lemma PollLeaf(urlOf: string -> string, href: Json, server: (string, nat) -> Http.Response, depth: nat)
    requires FirstPoll(urlOf, href, server).Ok?
    requires Subscript(FirstPoll(urlOf, href, server).value, "spawned_tasks") == Ok(JArr([]))
    ensures PollTask(urlOf, href, server, depth) == Ok([FirstPoll(urlOf, href, server).value])
  {
    var attrs := FirstPoll(urlOf, href, server).value;
    assert PyIter(JArr([])) == Ok([]);
    assert PollChildren(urlOf, [], server, depth) == Ok([]);
    assert [attrs] + [] == [attrs];
  }

  /** Polling a task that never leaves a running state gives up after one
      poll more than the limit, naming the task's href. */
  lemma PollTimesOut(urlOf: string -> string, href: Json, server: (string, nat) -> Http.Response, depth: nat)
    requires JoinArg(href).Ok?
    requires forall j :: 0 <= j <= PollLimit ==> Running(server(urlOf(JoinArg(href).value), j))
    ensures PollTask(urlOf, href, server, depth) == Err(TaskTimedOutError(HrefText(href)))
  {
  }

  // ---------------------------------------------------------------------
  // Response handlers.

  /** What to do with a response: return it as is, check it, or check it
      and return its decoded body. */
  datatype Handler = EchoHandler | SafeHandler | JsonHandler

  /** What a handler returns. */
  datatype Handled = Raw(response: Http.Response) | Decoded(body: Json)

  /** `_handle_202(server_config, response)`: only an "Accepted" response
      is looked into; its spawned tasks are polled first, then the call
      report is checked, then the tasks. */
  function Handle202(baseUrl: string, response: Http.Response, server: (string, nat) -> Http.Response, depth: nat)
    : (r: Result<()>)
    ensures response.statusCode != 202 ==> r == Ok(())
    ensures response.statusCode == 202 ==>
      (r.Ok? <==>
        && PollSpawnedTasks(TaskUrl(baseUrl), response.body, server, depth).Ok?
        && CheckCallReport(response.body).Ok?
        && CheckTasks(PollSpawnedTasks(TaskUrl(baseUrl), response.body, server, depth).value).Ok?)
    ensures (response.statusCode == 202 && PollSpawnedTasks(TaskUrl(baseUrl), response.body, server, depth).Ok?
      && CheckCallReport(response.body).Err?) ==> r == CheckCallReport(response.body)
  {
    if response.statusCode != 202 then Ok(())
    else
      var tasks :- PollSpawnedTasks(TaskUrl(baseUrl), response.body, server, depth);
      var _ :- CheckCallReport(response.body);
      CheckTasks(tasks)
  }

  /** `echo_handler`, `safe_handler` and `json_handler` */
  function Handle(h: Handler, baseUrl: string, response: Http.Response, server: (string, nat) -> Http.Response, depth: nat)
    : (r: Result<Handled>)
    ensures h == EchoHandler ==> r == Ok(Raw(response))
    ensures h != EchoHandler && 400 <= response.statusCode < 600 ==> r == Err(HTTPError(response.statusCode))
    ensures h != EchoHandler ==>
      (r.Ok? <==> !(400 <= response.statusCode < 600) && Handle202(baseUrl, response, server, depth).Ok?)
    ensures h == SafeHandler && r.Ok? ==> r.value == Raw(response)
    ensures h == JsonHandler && r.Ok? ==> r.value == Decoded(response.body)
  {
    match h
    case EchoHandler => Ok(Raw(response))
    case _ =>
      var _ :- Http.RaiseForStatus(response.statusCode);
      var _ :- Handle202(baseUrl, response, server, depth);
      Ok(if h == SafeHandler then Raw(response) else Decoded(response.body))
  }

  // ---------------------------------------------------------------------
  // The client.

  /** A request a helper makes through a client: verb, URL, JSON body,
      and the client's handler. */
  datatype Call = Call(verb: string, url: string, body: Option<Json>, handler: Handler)

  /** `api.Client`: the default request arguments and the handler. */
  datatype Client = Client(requestKwargs: Dict<Json>, handler: Handler)

  /** `Client(server_config, response_handler, request_kwargs)`: the
      configuration's request arguments, the base URL under `url`, then
      the given arguments over them; the handler defaults to
      `safe_handler`. */
  function NewClient(cfg: Config.PulpSmashConfig, baseUrl: string, handler: Option<Handler>,
                     requestKwargs: Option<Dict<Json>>): (r: Result<Client>)
    requires requestKwargs.Some? ==> DistinctKeys(requestKwargs.value)
    ensures r.Ok? <==> Config.GetRequestsKwargs(cfg, None).Ok?
    ensures r.Ok? ==> r.value.handler == (if handler.Some? then handler.value else SafeHandler)
    ensures r.Ok? ==>
      forall k :: Get(r.value.requestKwargs, k) ==
        (if requestKwargs.Some? && HasKey(requestKwargs.value, k) then Get(requestKwargs.value, k)
         else if k == "url" then Some(JStr(baseUrl))
         else Get(Config.GetRequestsKwargs(cfg, None).value, k))
  {
    var base :- Config.GetRequestsKwargs(cfg, None);
    var extra := if requestKwargs.Some? then requestKwargs.value else [];
    var withUrl := Set(base, "url", JStr(baseUrl));
    Config.SetGetAll(base, "url", JStr(baseUrl));
    forall k ensures Get(Update(withUrl, extra), k) == if HasKey(extra, k) then Get(extra, k) else Get(withUrl, k) {
      UpdateGet(withUrl, extra, k);
    }
    Ok(Client(Update(withUrl, extra), if handler.Some? then handler.value else SafeHandler))
  }

  /** The arguments `Client.request` hands to `requests.request`: a copy
      of the client's defaults, the URL joined onto the default one as
      `urljoin` joins them, then the call's own arguments over them. */
  function RequestArgs(c: Client, url: string, kwargs: Dict<Json>): (r: Result<Dict<Json>>)
    requires DistinctKeys(kwargs)
    ensures Get(c.requestKwargs, "url").None? ==> r == Err(KeyError("url"))
    ensures r.Ok? <==> Get(c.requestKwargs, "url").Some? && JoinJson(Get(c.requestKwargs, "url").value, JStr(url)).Ok?
    ensures Get(c.requestKwargs, "url").Some? && JoinJson(Get(c.requestKwargs, "url").value, JStr(url)).Err? ==>
      r == Err(JoinJson(Get(c.requestKwargs, "url").value, JStr(url)).error)
    ensures r.Ok? ==>
      forall k :: Get(r.value, k) ==
        (if HasKey(kwargs, k) then Get(kwargs, k)
         else if k == "url" then Some(JoinJson(Get(c.requestKwargs, "url").value, JStr(url)).value)
         else Get(c.requestKwargs, k))
    ensures Get(c.requestKwargs, "url").Some? && Get(c.requestKwargs, "url").value.JStr? && !HasKey(kwargs, "url") ==>
      r.Ok? && Get(r.value, "url") == Some(JStr(UrlJoin(Get(c.requestKwargs, "url").value.s, url)))
    ensures Get(c.requestKwargs, "url").Some? && !Truthy(Get(c.requestKwargs, "url").value) && !HasKey(kwargs, "url") ==>
      r.Ok? && Get(r.value, "url") == Some(JStr(url))
  {
    match Get(c.requestKwargs, "url")
    case None => Err(KeyError("url"))
    case Some(base) =>
      var target :- JoinJson(base, JStr(url));
      var joined := Set(c.requestKwargs, "url", target);
      Config.SetGetAll(c.requestKwargs, "url", target);
      forall k ensures Get(Update(joined, kwargs), k) == if HasKey(kwargs, k) then Get(kwargs, k) else Get(joined, k) {
        UpdateGet(joined, kwargs, k);
      }
      Ok(Update(joined, kwargs))
  }

  /** `Client.request(method, url, **kwargs)`: the response `send` gives
      for the assembled arguments, through the client's handler. */
  function Request(c: Client, verb: string, url: string, kwargs: Dict<Json>,
                   send: (string, Dict<Json>) -> Http.Response,
                   baseUrl: string, server: (string, nat) -> Http.Response, depth: nat): (r: Result<Handled>)
    requires DistinctKeys(kwargs)
    ensures RequestArgs(c, url, kwargs).Err? ==> r.Err?
    ensures RequestArgs(c, url, kwargs).Ok? ==>
      r == Handle(c.handler, baseUrl, send(verb, RequestArgs(c, url, kwargs).value), server, depth)
  {
    var args :- RequestArgs(c, url, kwargs);
    Handle(c.handler, baseUrl, send(verb, args), server, depth)
  }

  /** The keyword arguments `post`, `put` and `patch` forward: `json` is
      added exactly when the caller passed one, so an explicit null is sent
      and an omitted one is not. `None` stands for the omitted argument. */
  function BodyKwargs(json: Option<Json>, kwargs: Dict<Json>): (r: Dict<Json>)
    requires !HasKey(kwargs, "json")
    ensures DistinctKeys(kwargs) ==> DistinctKeys(r)
    ensures HasKey(r, "json") <==> json.Some?
    ensures json.Some? ==> Get(r, "json") == json
    ensures forall k :: k != "json" ==> Get(r, k) == Get(kwargs, k)
  {
    if json.None? then kwargs
    else
      var r := [("json", json.value)] + kwargs;
      assert Keys(r) == ["json"] + Keys(kwargs);
      r
  }

  /** The methods whose requests may carry a body. */
  datatype BodyVerb = Post | Put | Patch

  function VerbName(v: BodyVerb): string {
    match v
    case Post => "POST"
    case Put => "PUT"
    case Patch => "PATCH"
  }

  /** The arguments `post`, `put` and `patch` hand to `requests.request`:
      an explicit `json` (null included) is sent as given, an omitted one
      leaves the client's default payload, if any, in place. */
  lemma BodyArgs(c: Client, url: string, json: Option<Json>, kwargs: Dict<Json>)
    requires DistinctKeys(kwargs) && !HasKey(kwargs, "json")
    requires RequestArgs(c, url, kwargs).Ok?
    ensures RequestArgs(c, url, BodyKwargs(json, kwargs)).Ok?
    ensures Get(RequestArgs(c, url, BodyKwargs(json, kwargs)).value, "json") ==
      if json.Some? then json else Get(c.requestKwargs, "json")
    ensures forall k :: k != "json" ==>
      Get(RequestArgs(c, url, BodyKwargs(json, kwargs)).value, k) == Get(RequestArgs(c, url, kwargs).value, k)
  {
    var body := BodyKwargs(json, kwargs);
    forall k | k != "json"
      ensures Get(RequestArgs(c, url, body).value, k) == Get(RequestArgs(c, url, kwargs).value, k)
    {
      assert HasKey(body, k) <==> HasKey(kwargs, k) by {
        assert Get(body, k) == Get(kwargs, k);
      }
    }
  }

  /** `Client.post`, `Client.put` and `Client.patch(url, json, **kwargs)`:
      a request whose arguments are as `BodyArgs` states. */
  function BodyRequest(c: Client, verb: BodyVerb, url: string, json: Option<Json>, kwargs: Dict<Json>,
                       send: (string, Dict<Json>) -> Http.Response,
                       baseUrl: string, server: (string, nat) -> Http.Response, depth: nat): (r: Result<Handled>)
    requires DistinctKeys(kwargs) && !HasKey(kwargs, "json")
    ensures RequestArgs(c, url, kwargs).Err? ==> r.Err?
    ensures RequestArgs(c, url, kwargs).Ok? ==>
      r == Handle(c.handler, baseUrl, send(VerbName(verb), RequestArgs(c, url, BodyKwargs(json, kwargs)).value),
        server, depth)
  {
    Request(c, VerbName(verb), url, BodyKwargs(json, kwargs), send, baseUrl, server, depth)
  }
}
