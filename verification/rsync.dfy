/** Helpers of the Pulp 2 RPM rsync distributor tests
    (pulp_smash/tests/pulp2/rpm/api_v2/test_rsync_distributor.py): splitting
    a filesystem path into its pieces, the directories walked down to the
    published units, and the number of units a publish's unit query steps
    processed. */
module Rsync {
  import opened Results
  import opened Strs
  import opened Json
  import Urls

  // ---------------------------------------------------------------------
  // os.path.split, os.path.join

  /** A text made of '/' only. */
  predicate AllSlashes(s: string) {
    forall k :: 0 <= k < |s| ==> s[k] == '/'
  }

  /** `s.rstrip('/')` */
  function RStripSlashes(s: string): (r: string)
    ensures |r| <= |s| && s[..|r|] == r
    ensures r == "" || r[|r| - 1] != '/'
    ensures AllSlashes(s[|r|..])
    decreases |s|
  {
    if |s| > 0 && s[|s| - 1] == '/' then RStripSlashes(s[..|s| - 1]) else s
  }

  /** `posixpath.split(p)`: the tail is what follows the last '/', the head
      what precedes it with its trailing slashes removed, unless the head
      is nothing but slashes. */
  function PathSplit(p: string): (r: (string, string))
    ensures '/' !in r.1
    ensures r.0 == "" <==> '/' !in p
    ensures |r.0| + |r.1| <= |p| && p[|p| - |r.1|..] == r.1
    ensures r.0 != "" ==> r.0[0] == p[0]
    ensures r.0 != "" && !AllSlashes(r.0) ==> |r.0| < |p| && p[..|r.0|] == r.0 && p[|r.0|] == '/'
  {
    var i := LastIndexOf(p, '/') + 1;
    var head := p[..i];
    var tail := p[i..];
    assert '/' !in tail;
    assert '/' in p ==> i > 0 && p[i - 1] == '/';
    if head != "" && !AllSlashes(head) then
      var stripped := RStripSlashes(head);
      assert stripped != "";
      assert |stripped| < i;
      assert p[..|stripped|] == stripped;
      assert p[|stripped|] == '/' by {
        assert head[|stripped|..][0] == '/';
      }
      assert stripped[0] == head[0];
      (stripped, tail)
    else
      (head, tail)
  }

  /** `posixpath.join(a, b)` of two pieces: an absolute `b` replaces `a`,
      otherwise `b` follows `a` after one '/'. */
  function PathJoin(a: string, b: string): (r: string)
    ensures |b| > 0 && b[0] == '/' ==> r == b
    ensures (|b| == 0 || b[0] != '/') && a != "" && a[|a| - 1] != '/' ==> r == a + "/" + b
    ensures (|b| == 0 || b[0] != '/') && (a == "" || a[|a| - 1] == '/') ==> r == a + b
  {
    if |b| > 0 && b[0] == '/' then b
    else if a == "" || a[|a| - 1] == '/' then a + b
    else a + "/" + b
  }

  // ---------------------------------------------------------------------
  // _split_path

  /** `_split_path(path)`: the pieces `os.path.split` peels off the path,
      first piece first. A relative path is split down to a head of "";
      the head of an absolute path ends as slashes that split into
      themselves, so the recursion never ends and raises `RecursionError`. */
  function SplitPath(path: string): (r: Result<seq<string>>)
    ensures r.Err? <==> |path| > 0 && path[0] == '/'
    ensures r.Err? ==> r.error == RecursionError
    ensures r.Ok? ==> |r.value| >= 1 && r.value[|r.value| - 1] == PathSplit(path).1
    ensures r.Ok? ==> forall i :: 0 <= i < |r.value| ==> '/' !in r.value[i]
    decreases |path|
  {
    var (head, tail) := PathSplit(path);
    if head == "" then
      assert |path| > 0 ==> path[0] in path;
      var all := [tail];
      assert forall i :: 0 <= i < |all| ==> '/' !in all[i] by {
        assert all[0] == tail;
      }
      Ok(all)
    else if AllSlashes(head) then
      Err(RecursionError)
    else
      match SplitPath(head)
      case Err(e) => Err(e)
      case Ok(pieces) =>
        var all := pieces + [tail];
        assert forall i :: 0 <= i < |all| ==> '/' !in all[i] by {
          forall i | 0 <= i < |all|
            ensures '/' !in all[i]
          {
            if i < |pieces| {
              assert all[i] == pieces[i];
            }
          }
        }
        Ok(all)
  }

  /** An absolute path's head is a path of slashes, which splits into
      itself: the fixpoint that makes `_split_path` recurse forever. */
  lemma SlashesSplitIntoThemselves(s: string)
    requires s != "" && AllSlashes(s)
    ensures PathSplit(s) == (s, "")
  {
    assert s[|s| - 1] == '/';
    assert LastIndexOf(s, '/') == |s| - 1;
    assert s[..|s|] == s;
  }

  /** A relative path without doubled or trailing-slash surprises splits as
      `str.split('/')` does: a path with no "//" that does not start with
      '/' comes apart at each of its slashes. */
  predicate PlainRelative(p: string) {
    (|p| == 0 || p[0] != '/') && forall k :: 0 <= k < |p| - 1 ==> !(p[k] == '/' && p[k + 1] == '/')
  }

  /** A plain relative path splits into its '/'-separated pieces. */
  lemma {:induction false} SplitPathIsSplit(p: string)
    requires PlainRelative(p)
    ensures SplitPath(p) == Ok(Split(p, '/'))
    decreases |p|
  {
    Urls.SplitAtLast(p, '/');
    if '/' in p {
      var i := LastIndexOf(p, '/');
      var head := p[..i];
      assert i > 0;
      assert head[|head| - 1] != '/' by {
        assert p[i - 1] != '/';
      }
      assert RStripSlashes(p[..i + 1]) == head by {
        assert p[..i + 1][..i] == head;
      }
      assert !AllSlashes(p[..i + 1]) by {
        assert p[..i + 1][0] == p[0];
      }
      assert PathSplit(p) == (head, p[i + 1..]);
      Urls.AfterLastAt(p, '/');
      assert PlainRelative(head);
      SplitPathIsSplit(head);
    } else {
      SplitWhole(p, '/');
    }
  }

  // ---------------------------------------------------------------------
  // Walking down to the published units

  /** `path = os.path.join(path, segment)` for each segment in turn: the
      directories listed on the way (one per segment, the root first) and
      the directory reached. */
  function Walk(root: string, segments: seq<string>): (r: (seq<string>, string))
    ensures |r.0| == |segments|
    decreases |segments|
  {
    if |segments| == 0 then ([], root)
    else
      var rest := Walk(PathJoin(root, segments[0]), segments[1..]);
      ([root] + rest.0, rest.1)
  }

  /** The walk starts at the root, lists each directory joined with the
      next segment, and ends at the last directory joined with the last
      segment. */
  lemma {:induction false} WalkSteps(root: string, segments: seq<string>)
    ensures |segments| > 0 ==> Walk(root, segments).0[0] == root
    ensures forall k :: 0 <= k < |segments| - 1 ==>
      Walk(root, segments).0[k + 1] == PathJoin(Walk(root, segments).0[k], segments[k])
    ensures |segments| > 0 ==>
      Walk(root, segments).1 == PathJoin(Walk(root, segments).0[|segments| - 1], segments[|segments| - 1])
    ensures |segments| == 0 ==> Walk(root, segments).1 == root
    decreases |segments|
  {
    if |segments| > 0 {
      var next := PathJoin(root, segments[0]);
      WalkSteps(next, segments[1..]);
      var w := Walk(root, segments);
      var rest := Walk(next, segments[1..]);
      assert w.0 == [root] + rest.0;
      forall k | 0 <= k < |segments| - 1
        ensures w.0[k + 1] == PathJoin(w.0[k], segments[k])
      {
        if k > 0 {
          assert w.0[k + 1] == rest.0[k] && w.0[k] == rest.0[k - 1];
          assert segments[k] == segments[1..][k - 1];
        }
      }
    }
  }

  /** Joining pieces without '/' one after another, every piece but the
      last non-empty, lands at the pieces joined by '/' under the root. */
  lemma {:induction false} WalkJoins(root: string, segments: seq<string>)
    requires root != "" && root[|root| - 1] != '/'
    requires |segments| > 0
    requires forall k :: 0 <= k < |segments| ==> '/' !in segments[k]
    requires forall k :: 0 <= k < |segments| - 1 ==> segments[k] != ""
    ensures Walk(root, segments).1 == root + "/" + Join(segments, "/")
    decreases |segments|
  {
    var x := segments[0];
    if |segments| > 1 {
      var next := root + "/" + x;
      assert x != "" && '/' !in x;
      assert x[|x| - 1] in x;
      WalkJoins(next, segments[1..]);
    }
  }

  /** Among the pieces of a plain relative path only the last can be
      empty. */
  lemma {:induction false} InnerPiecesNonEmpty(p: string)
    requires PlainRelative(p)
    ensures forall k :: 0 <= k < |Split(p, '/')| - 1 ==> Split(p, '/')[k] != ""
    decreases |p|
  {
    Urls.SplitAtLast(p, '/');
    if '/' in p {
      var i := LastIndexOf(p, '/');
      var head := p[..i];
      assert i > 0;
      assert PlainRelative(head);
      InnerPiecesNonEmpty(head);
      Urls.SplitAtLast(head, '/');
      assert Urls.AfterLast(head, '/') != "" by {
        Urls.AfterLastAt(head, '/');
        assert head[|head| - 1] != '/' by {
          assert p[i - 1] != '/';
        }
        assert LastIndexOf(head, '/') < |head| - 1;
      }
    }
  }

  /** The default place of the units under the remote root. */
  const DefaultUnitsPath: string := "content/units"

  /** `config.get('remote_units_path', 'content/units')` */
  function UnitsPath(config: Json): (r: Result<string>)
    ensures config.JObj? && !HasKey(config.fields, "remote_units_path") ==> r == Ok(DefaultUnitsPath)
    ensures config.JObj? && HasKey(config.fields, "remote_units_path") && Get(config.fields, "remote_units_path").value.JStr? ==>
      r == Ok(Get(config.fields, "remote_units_path").value.s)
    ensures r.Ok? ==> config.JObj?
    ensures r.Ok? && HasKey(config.fields, "remote_units_path") ==> Get(config.fields, "remote_units_path") == Some(JStr(r.value))
  {
    if !config.JObj? then Err(AttributeError("'get'"))
    else match Get(config.fields, "remote_units_path")
      case None => Ok(DefaultUnitsPath)
      case Some(v) => if v.JStr? then Ok(v.s) else Err(NotModelled("a remote_units_path that is not a string"))
  }

  /** The directory the units are searched in and the directories listed on
      the way: the distributor's `config.remote.root`, then each piece of
      its `remote_units_path` ("content/units" by default). */
  function UnitsWalk(distributorCfg: Json): (r: Result<(seq<string>, string)>)
    ensures r.Ok? ==> Subscript(distributorCfg, "config").Ok? && Subscript(distributorCfg, "config").value.JObj?
    ensures r.Ok? ==>
      var config := Subscript(distributorCfg, "config").value;
      Subscript(config, "remote").Ok? && SubscriptStr(Subscript(config, "remote").value, "root").Ok? &&
      UnitsPath(config).Ok? && SplitPath(UnitsPath(config).value).Ok? &&
      r.value == Walk(SubscriptStr(Subscript(config, "remote").value, "root").value, SplitPath(UnitsPath(config).value).value)
    ensures Subscript(distributorCfg, "config").Ok? ==>
      var config := Subscript(distributorCfg, "config").value;
      (r.Ok? <==>
         && Subscript(config, "remote").Ok? && SubscriptStr(Subscript(config, "remote").value, "root").Ok?
         && UnitsPath(config).Ok? && SplitPath(UnitsPath(config).value).Ok?)
  {
    var config :- Subscript(distributorCfg, "config");
    var remote :- Subscript(config, "remote");
    var root :- SubscriptStr(remote, "root");
    var unitsPath :- UnitsPath(config);
    var segments :- SplitPath(unitsPath);
    Ok(Walk(root, segments))
  }

  /** With a plain root and a plain relative units path, the units are
      searched in the units path under the root. */
  lemma UnitsUnderRoot(root: string, unitsPath: string)
    requires root != "" && root[|root| - 1] != '/'
    requires PlainRelative(unitsPath)
    ensures SplitPath(unitsPath).Ok?
    ensures Walk(root, SplitPath(unitsPath).value).1 == root + "/" + unitsPath
  {
    SplitPathIsSplit(unitsPath);
    InnerPiecesNonEmpty(unitsPath);
    WalkJoins(root, Split(unitsPath, '/'));
    JoinSplit(unitsPath, '/');
  }

  /** A two-piece units path such as the default "content/units" splits
      into its two pieces. */
  lemma {:induction false} TwoPieceSplit(a: string, b: string)
    requires a != "" && '/' !in a && '/' !in b
    ensures SplitPath(a + "/" + b) == Ok([a, b])
  {
    var p := a + "/" + b;
    assert p == a + ['/'] + b;
    SplitConcat(a, b, '/');
    SplitWhole(a, '/');
    SplitWhole(b, '/');
    assert PlainRelative(p) by {
      assert a[0] in a;
      forall k | 0 <= k < |p| - 1
        ensures !(p[k] == '/' && p[k + 1] == '/')
      {
        if k < |a| {
          assert p[k] == a[k] && a[k] in a;
        } else if k == |a| {
          assert p[k + 1] == b[0] && b[0] in b;
        } else {
          assert p[k] == b[k - |a| - 1] && b[k - |a| - 1] in b;
        }
      }
    }
    assert Split(p, '/') == [a, b];
    SplitPathIsSplit(p);
  }

  /** A plain segment joins a plain directory after one '/', and the result
      is plain again when the segment is not empty. */
  lemma JoinPlain(dir: string, segment: string)
    requires dir != "" && dir[|dir| - 1] != '/' && '/' !in segment
    ensures PathJoin(dir, segment) == dir + "/" + segment
    ensures segment != "" ==> (dir + "/" + segment)[|dir + "/" + segment| - 1] != '/'
  {
    assert |segment| > 0 ==> segment[0] in segment && segment[|segment| - 1] in segment;
  }

  /** Walking down two pieces lists the root and the first piece under it,
      and ends under both pieces. */
  lemma {:induction false} TwoPieceWalk(root: string, a: string, b: string)
    requires root != "" && root[|root| - 1] != '/'
    requires a != "" && '/' !in a && '/' !in b
    ensures Walk(root, [a, b]) == ([root, root + "/" + a], root + "/" + a + "/" + b)
  {
    var next := root + "/" + a;
    JoinPlain(root, a);
    JoinPlain(next, b);
    WalkOne(next, b);
    var one := Walk(next, [b]);
    assert [a, b][1..] == [b] && [a, b][0] == a;
    assert Walk(root, [a, b]) == ([root] + one.0, one.1);
    assert [root] + [next] == [root, next];
  }

  /** The default units path comes apart as "content" and "units", so
      (by `TwoPieceWalk`) the root and `root/content` are listed and the
      units are searched at `root/content/units`. */
  lemma {:induction false} DefaultUnitsSplit()
    ensures SplitPath(DefaultUnitsPath) == Ok(["content", "units"])
  {
    assert DefaultUnitsPath == "content" + "/" + "units";
    TwoPieceSplit("content", "units");
  }

  /** One segment: the directory is listed and joined with it. */
  lemma {:induction false} WalkOne(dir: string, segment: string)
    ensures Walk(dir, [segment]) == ([dir], PathJoin(dir, segment))
  {
    var last := PathJoin(dir, segment);
    assert [segment][1..] == [] && [segment][0] == segment;
    assert Walk(last, []) == ([], last);
    var rest := Walk(last, [segment][1..]);
    assert [dir] + rest.0 == [dir];
    assert Walk(dir, [segment]) == ([dir] + rest.0, rest.1);
  }

  // ---------------------------------------------------------------------
  // get_num_processed

  /** The step type prefix whose steps are counted. */
  const UnitQueryStep: string := "unit query step"

  /** A Python number as `sum` adds it: an int, or a bool as 0 or 1. */
  function PyNumber(v: Json): (r: Result<int>)
    ensures r.Ok? <==> v.JInt? || v.JBool?
    ensures v.JInt? ==> r == Ok(v.i)
  {
    match v
    case JInt(i) => Ok(i)
    case JBool(b) => Ok(if b then 1 else 0)
    case _ => Err(TypeError("unsupported operand type(s) for +"))
  }

  /** A step's contribution: its `num_processed` when its lower-cased type
      starts with "unit query step", nothing otherwise. */
  function StepCount(step: Json): (r: Result<int>)
    ensures r.Ok? ==> Subscript(step, "step_type").Ok? && Subscript(step, "step_type").value.JStr?
    ensures r.Ok? && !StartsWith(Lower(Subscript(step, "step_type").value.s), UnitQueryStep) ==> r.value == 0
    ensures r.Ok? && StartsWith(Lower(Subscript(step, "step_type").value.s), UnitQueryStep) ==>
      Subscript(step, "num_processed").Ok? && PyNumber(Subscript(step, "num_processed").value) == r
  {
    var stepType :- Subscript(step, "step_type");
    if !stepType.JStr? then Err(AttributeError("'lower'"))
    else if !StartsWith(Lower(stepType.s), UnitQueryStep) then Ok(0)
    else
      var n :- Subscript(step, "num_processed");
      PyNumber(n)
  }

  /** The sum over the steps, in order; the first step that fails stops
      the sum with its error. */
  function SumCounts(steps: seq<Json>): (r: Result<int>)
    decreases |steps|
  {
    if |steps| == 0 then Ok(0)
    else
      var before :- SumCounts(steps[..|steps| - 1]);
      var n :- StepCount(steps[|steps| - 1]);
      Ok(before + n)
  }

  /** The sum is the first failing step's error when a step fails. */
  lemma {:induction false} SumCountsErr(steps: seq<Json>)
    ensures SumCounts(steps).Err? <==> exists k :: 0 <= k < |steps| && StepCount(steps[k]).Err?
    decreases |steps|
  {
    if |steps| > 0 {
      var init := steps[..|steps| - 1];
      SumCountsErr(init);
      assert forall k :: 0 <= k < |init| ==> init[k] == steps[k];
    }
  }

  /** Once a prefix of the steps fails, the whole sum fails the same way. */
  lemma {:induction false} SumCountsErrPrefix(steps: seq<Json>, n: nat)
    requires n <= |steps|
    requires SumCounts(steps[..n]).Err?
    ensures SumCounts(steps) == SumCounts(steps[..n])
    decreases |steps| - n
  {
    if n < |steps| {
      var longer := steps[..n + 1];
      assert longer[..n] == steps[..n];
      SumCountsErrPrefix(steps, n + 1);
    } else {
      assert steps[..n] == steps;
    }
  }

  /** Steps none of which is a unit query step add up to 0. */
  lemma {:induction false} NoQueryStepsSumZero(steps: seq<Json>)
    requires forall k :: 0 <= k < |steps| ==> StepCount(steps[k]) == Ok(0)
    ensures SumCounts(steps) == Ok(0)
    decreases |steps|
  {
    if |steps| > 0 {
      var init := steps[..|steps| - 1];
      assert forall k :: 0 <= k < |init| ==> init[k] == steps[k];
      NoQueryStepsSumZero(init);
    }
  }

  /** Steps with non-negative counts add up to at least each count. */
  lemma {:induction false} SumCountsBound(steps: seq<Json>, k: nat)
    requires SumCounts(steps).Ok?
    requires forall j :: 0 <= j < |steps| ==> StepCount(steps[j]).Ok? && StepCount(steps[j]).value >= 0
    requires k < |steps|
    ensures SumCounts(steps).value >= StepCount(steps[k]).value
    decreases |steps|
  {
    var init := steps[..|steps| - 1];
    assert forall j :: 0 <= j < |init| ==> init[j] == steps[j];
    if k < |steps| - 1 {
      SumCountsBound(init, k);
    } else if |init| > 0 {
      SumCountsNonNegative(init);
    }
  }

  /** Non-negative counts add up to a non-negative sum. */
  lemma {:induction false} SumCountsNonNegative(steps: seq<Json>)
    requires SumCounts(steps).Ok?
    requires forall j :: 0 <= j < |steps| ==> StepCount(steps[j]).Ok? && StepCount(steps[j]).value >= 0
    ensures SumCounts(steps).value >= 0
    decreases |steps|
  {
    if |steps| > 0 {
      var init := steps[..|steps| - 1];
      assert forall j :: 0 <= j < |init| ==> init[j] == steps[j];
      SumCountsNonNegative(init);
    }
  }

  /** `publish_task['result']['details']` as a list. */
  function Steps(publishTask: Json): Result<seq<Json>> {
    var result :- Subscript(publishTask, "result");
    var details :- Subscript(result, "details");
    PyIter(details)
  }

  /** The sum `get_num_processed` computes, defined step by step. */
  function NumProcessed(publishTask: Json): Result<int> {
    var steps :- Steps(publishTask);
    SumCounts(steps)
  }

  /** `get_num_processed(publish_task)`: the `num_processed` of the unit
      query steps among `publish_task['result']['details']`, added up in
      order. */
  method GetNumProcessed(publishTask: Json) returns (r: Result<int>)
    ensures r == NumProcessed(publishTask)
  {
    var steps :- Steps(publishTask);
    var total := 0;
    var i := 0;
    while i < |steps|
      invariant 0 <= i <= |steps|
      invariant SumCounts(steps[..i]) == Ok(total)
    {
      var n := StepCount(steps[i]);
      assert steps[..i + 1][..i] == steps[..i];
      if n.Err? {
        assert SumCounts(steps[..i + 1]) == Err(n.error);
        SumCountsErrPrefix(steps, i + 1);
        return Err(n.error);
      }
      total := total + n.value;
      i := i + 1;
    }
    assert steps[..i] == steps;
    return Ok(total);
  }
}
