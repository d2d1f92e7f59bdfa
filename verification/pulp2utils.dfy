/** Helpers for testing Pulp 2 (pulp_smash/pulp2/utils.py): the requests
    that publish a repository, upload and import a unit and search a
    repository's units, detection of the AMQP broker, reading Squid's
    version, and the Pulp 2 and unit type guards.

    A helper that talks to Pulp is modelled by the request it makes, a
    `Call`; what the server answers is outside the model. */
module Pulp2Utils {
  import opened Results
  import opened Strs
  import opened Json
  import opened Versions
  import opened Urls
  import Api
  import Cli
  import Config

  // ---------------------------------------------------------------------
  // publish_repo

  /** The body `publish_repo` posts when given none, from the value of the
      repository's `distributors` key: the id of its one and only
      distributor. A missing key or a length other than one is a
      `ValueError`. */
  function DefaultPublishBody(distributors: Option<Json>): (r: Result<Json>)
    ensures r.Ok? <==>
      exists d :: distributors == Some(JArr([d])) && Subscript(d, "id").Ok?
    ensures r.Ok? ==>
      exists d :: distributors == Some(JArr([d])) && r.value == JObj([("id", Subscript(d, "id").value)])
    ensures distributors.None? ==> r.Err? && r.error.ValueError?
    ensures (distributors.Some? && PyLen(distributors.value).Ok? && PyLen(distributors.value).value != 1) ==>
      r.Err? && r.error.ValueError?
  {
    var message := "No request body was passed, and the given repository does not have exactly one distributor.";
    match distributors
    case None => Err(ValueError(message))
    case Some(ds) =>
      var n :- PyLen(ds);
      if n != 1 then Err(ValueError(message))
      else
        var first :- Index(ds, 0);
        assert ds.JArr? ==> ds.items == [ds.items[0]];
        var id :- Subscript(first, "id");
        Ok(JObj([("id", id)]))
  }

  /** `publish_repo(cfg, repo, json)`: posts the given body, or else the
      default one, to the repository's publish action. A null `json` is
      Python's `None`, which is also what an omitted one is. The
      repository's `_href` is read as `urljoin` reads it, so a null href
      posts to the bare `actions/publish/`. */
  function PublishRepo(repo: Json, json: Json): (r: Result<Api.Call>)
    ensures r.Ok? <==>
      (json != JNull || DefaultPublishBody(Config.Field(repo, "distributors")).Ok?) && JoinArgAt(repo, "_href").Ok?
    ensures json == JNull && DefaultPublishBody(Config.Field(repo, "distributors")).Err? ==>
      r == Err(DefaultPublishBody(Config.Field(repo, "distributors")).error)
    ensures (json != JNull || DefaultPublishBody(Config.Field(repo, "distributors")).Ok?) && JoinArgAt(repo, "_href").Err? ==>
      r == Err(JoinArgAt(repo, "_href").error)
    ensures r.Ok? ==> r.value.verb == "POST" && r.value.url == UrlJoin(JoinArgAt(repo, "_href").value, "actions/publish/")
    ensures r.Ok? && !Truthy(Subscript(repo, "_href").value) ==> r.value.url == "actions/publish/"
    ensures r.Ok? ==> r.value.handler == Api.SafeHandler
    ensures r.Ok? && json != JNull ==> r.value.body == Some(json)
    ensures r.Ok? && json == JNull ==> r.value.body == Some(DefaultPublishBody(Config.Field(repo, "distributors")).value)
  {
    var body :- if json != JNull then Ok(json) else DefaultPublishBody(Config.Field(repo, "distributors"));
    var href :- JoinArgAt(repo, "_href");
    Ok(Api.Call("POST", UrlJoin(href, "actions/publish/"), Some(body), Api.SafeHandler))
  }

  // ---------------------------------------------------------------------
  // upload_import_unit

  type Byte = b: int | 0 <= b < 256

  /** The number of bytes sent per upload request. */
  const ChunkSize: nat := 200000

  /** An upload request: the byte offset of a chunk and the chunk. */
  datatype Put = Put(offset: nat, chunk: seq<Byte>)

  /** Where a chunk is put: the upload URL joined with the chunk's byte
      offset and a slash. */
  function PutPath(uploadHref: string, offset: nat): string {
    UrlJoin(uploadHref, NatToString(offset) + "/")
  }

  /** The bytes of a sequence of upload requests, in order. */
  function Payload(puts: seq<Put>): seq<Byte>
    decreases |puts|
  {
    if |puts| == 0 then [] else Payload(puts[..|puts| - 1]) + puts[|puts| - 1].chunk
  }

  lemma PayloadSnoc(puts: seq<Put>, put: Put)
    ensures Payload(puts + [put]) == Payload(puts) + put.chunk
  {
    assert (puts + [put])[..|puts|] == puts;
  }

  /** Each chunk sits at its own offset, no chunk is empty or larger than
      `ChunkSize`, and every chunk but the last is full. */
  predicate WellChunked(puts: seq<Put>) {
    && (forall i :: 0 <= i < |puts| ==> puts[i].offset == i * ChunkSize)
    && (forall i :: 0 <= i < |puts| ==> 0 < |puts[i].chunk| <= ChunkSize)
    && (forall i :: 0 <= i < |puts| - 1 ==> |puts[i].chunk| == ChunkSize)
  }

  /** Appending a chunk at the next offset after full chunks keeps the
      requests well chunked. */
  lemma WellChunkedSnoc(puts: seq<Put>, put: Put)
    requires WellChunked(puts)
    requires |puts| > 0 ==> |puts[|puts| - 1].chunk| == ChunkSize
    requires put.offset == |puts| * ChunkSize && 0 < |put.chunk| <= ChunkSize
    ensures WellChunked(puts + [put])
  {
  }

  /** The upload requests sent once `position` bytes of `unit` are read:
      they carry exactly those bytes, well chunked, and a short chunk is
      only ever the last read. */
  predicate ChunkedUpTo(unit: seq<Byte>, puts: seq<Put>, position: nat) {
    && position <= |unit|
    && (position == |puts| * ChunkSize || position == |unit|)
    && (|puts| > 0 && |puts[|puts| - 1].chunk| < ChunkSize ==> position == |unit|)
    && (|puts| == 0 <==> position == 0)
    && Payload(puts) == unit[..position]
    && WellChunked(puts)
  }

  /** Reading the next chunk, when it is not empty, and putting it at its
      offset keeps `ChunkedUpTo`. */
  lemma ChunkStep(unit: seq<Byte>, puts: seq<Put>, position: nat, end: nat)
    requires ChunkedUpTo(unit, puts, position)
    requires end == if position + ChunkSize <= |unit| then position + ChunkSize else |unit|
    requires position < end
    ensures position == |puts| * ChunkSize
    ensures ChunkedUpTo(unit, puts + [Put(position, unit[position..end])], end)
  {
    var put := Put(position, unit[position..end]);
    PayloadSnoc(puts, put);
    assert unit[..position] + put.chunk == unit[..end];
    WellChunkedSnoc(puts, put);
  }

  /** The upload requests of `upload_import_unit`: the unit read in chunks
      of `ChunkSize` bytes, each chunk put at the offset it was read from,
      until a read comes back empty. Together the chunks are the unit;
      every chunk but the last is full; an empty unit sends nothing. The
      paths are those of the offsets. */
  method UploadChunks(uploadHref: string, unit: seq<Byte>) returns (puts: seq<Put>, paths: seq<string>)
    ensures Payload(puts) == unit
    ensures |puts| == 0 <==> |unit| == 0
    ensures WellChunked(puts)
    ensures |paths| == |puts| && forall i :: 0 <= i < |puts| ==> paths[i] == PutPath(uploadHref, i * ChunkSize)
  {
    var offset: nat := 0;
    var position: nat := 0;
    puts := [];
    while true
      invariant offset == |puts| * ChunkSize
      invariant ChunkedUpTo(unit, puts, position)
      decreases |unit| - position
    {
      var end := if position + ChunkSize <= |unit| then position + ChunkSize else |unit|;
      var chunk := unit[position..end];
      if |chunk| == 0 {
        break;
      }
      ChunkStep(unit, puts, position, end);
      puts := puts + [Put(offset, chunk)];
      position := end;
      offset := offset + ChunkSize;
    }
    assert unit[..position] == unit;
    paths := seq(|puts|, i requires 0 <= i < |puts| => PutPath(uploadHref, puts[i].offset));
  }

  /** The body that imports the upload: `unit_key` empty and the upload's
      id, then `import_params` over them, so its keys win. */
  function ImportBody(malloc: Json, importParams: Dict<Json>): (r: Result<Dict<Json>>)
    requires DistinctKeys(importParams)
    ensures r.Ok? <==> Subscript(malloc, "upload_id").Ok?
    ensures r.Ok? ==>
      forall k :: Get(r.value, k) ==
        (if HasKey(importParams, k) then Get(importParams, k)
         else if k == "unit_key" then Some(JObj([]))
         else if k == "upload_id" then Some(Subscript(malloc, "upload_id").value)
         else None)
  {
    var uploadId :- Subscript(malloc, "upload_id");
    var body := [("unit_key", JObj([])), ("upload_id", uploadId)];
    forall k
      ensures Get(Overridden(body, importParams), k) ==
        (if HasKey(importParams, k) then Get(importParams, k)
         else if k == "unit_key" then Some(JObj([]))
         else if k == "upload_id" then Some(uploadId)
         else None)
    {
      assert Get(Overridden(body, importParams), k) == if HasKey(importParams, k) then Get(importParams, k) else Get(body, k);
      assert body[1..] == [("upload_id", uploadId)];
      assert body[1..][1..] == [];
      if k != "unit_key" && k != "upload_id" {
        assert Get(body, k) == Get(body[1..], k) == Get(body[1..][1..], k) == None;
      }
    }
    Ok(Overridden(body, importParams))
  }

  // ---------------------------------------------------------------------
  // get_broker

  /** The broker executables, in order of preference. */
  const BrokerProbes: seq<(seq<string>, string)> :=
    [(["test", "-e", "/usr/sbin/qpidd"], "qpidd"), (["test", "-e", "/usr/sbin/rabbitmq"], "rabbitmq")]

  /** `get_broker(cfg)`: "qpidd" when its executable exists, else
      "rabbitmq" when that one does. */
  function GetBroker(succeeds: seq<string> -> bool): (r: Result<string>)
    ensures r == Ok("qpidd") <==> succeeds(BrokerProbes[0].0)
    ensures r == Ok("rabbitmq") <==> !succeeds(BrokerProbes[0].0) && succeeds(BrokerProbes[1].0)
    ensures r.Err? <==> !succeeds(BrokerProbes[0].0) && !succeeds(BrokerProbes[1].0)
    ensures r.Err? ==> r.error == NoKnownBrokerError
  {
    match Cli.FirstProbe(BrokerProbes, succeeds)
    case Some(broker) => Ok(broker)
    case None => Err(NoKnownBrokerError)
  }

  // ---------------------------------------------------------------------
  // Guards

  /** `require_pulp_2(exc)`: raises unless 2 <= version < 3. */
  function RequirePulp2(version: Version): (r: Result<()>)
    ensures r.Ok? <==> Le(V(2), version) && Lt(version, V(3))
    ensures r.Err? ==> r.error.CallerException?
  {
    CompareFlip(version, V(2));
    CompareFlip(version, V(3));
    if Lt(version, V(2)) || !Lt(version, V(3)) then
      Err(CallerException("These tests are for Pulp 2, but Pulp " + Format(version) + " is under test."))
    else Ok(())
  }

  /** `get_unit_types()` from the body of the plugin types listing: the
      `id` of each entry. */
  function UnitTypes(listing: Json): (r: Result<set<Json>>)
    ensures r.Ok? ==> listing.JArr? || listing.JObj? || listing.JStr?
    ensures r.Ok? <==> PyIter(listing).Ok? && forall i :: 0 <= i < |PyIter(listing).value| ==> Collectable(PyIter(listing).value[i], "id")
    ensures listing.JArr? && (forall i :: 0 <= i < |listing.items| ==> Collectable(listing.items[i], "id")) ==>
      r.Ok? && forall x :: x in r.value <==>
        exists i :: 0 <= i < |listing.items| && Subscript(listing.items[i], "id") == Ok(x)
    ensures listing.JArr? ==>
      forall i :: FirstUnhashable(listing.items, "id", i) ==> r == Err(TypeError("unhashable type"))
  {
    var entries :- PyIter(listing);
    Collect(entries, "id")
  }

  /** `require_unit_types(required_unit_types, exc)`: raises exactly when
      some required type is missing from the server's listing. */
  function RequireUnitTypes(required: set<string>, listing: Json): (r: Result<()>)
    ensures UnitTypes(listing).Err? ==> r == Err(UnitTypes(listing).error)
    ensures UnitTypes(listing).Ok? ==> (r.Ok? <==> Missing(required, UnitTypes(listing).value) == {})
    ensures UnitTypes(listing).Ok? && r.Err? ==> r.error.CallerException?
  {
    var supported :- UnitTypes(listing);
    if Missing(required, supported) != {} then
      Err(CallerException("The following unit types aren't supported by the Pulp application under test"))
    else Ok(())
  }

  // ---------------------------------------------------------------------
  // _get_squid_version

  /** The characters `str.splitlines` breaks lines at. */
  predicate IsLineBreak(c: char) {
    c == '\n' || c == '\r' || c as int == 0x0b || c as int == 0x0c || c as int == 0x1c || c as int == 0x1d
    || c as int == 0x1e || c as int == 0x85 || c as int == 0x2028 || c as int == 0x2029
  }

  /** `s.splitlines()[0]`: the text before the first line break; there is
      no first line in an empty text. */
  function FirstLine(s: string): (r: Result<string>)
    ensures r.Ok? <==> |s| > 0
    ensures r.Ok? ==> StartsWith(s, r.value) && forall i :: 0 <= i < |r.value| ==> !IsLineBreak(r.value[i])
    ensures r.Ok? && |r.value| < |s| ==> IsLineBreak(s[|r.value|])
  {
    if |s| == 0 then Err(IndexError)
    else Ok(LineHead(s))
  }

  function LineHead(s: string): (r: string)
    ensures StartsWith(s, r) && forall i :: 0 <= i < |r| ==> !IsLineBreak(r[i])
    ensures |r| < |s| ==> IsLineBreak(s[|r|])
    decreases |s|
  {
    if |s| == 0 || IsLineBreak(s[0]) then ""
    else
      var rest := LineHead(s[1..]);
      assert s[1..][..|rest|] == s[1..|rest| + 1];
      [s[0]] + rest
  }

  /** The lower-cased phrase before the version on Squid's first line. */
  const SquidPhrase: string := "squid cache: version "

  /** `_get_squid_version(cfg)` from the output of `squid -v`: the first
      line, lower-cased, with as many characters dropped as the phrase has,
      stripped and parsed. */
  function SquidVersion(stdout: string): (r: Result<Version>)
    ensures |stdout| == 0 ==> r == Err(IndexError)
    ensures |stdout| > 0 ==>
      var line := Lower(FirstLine(stdout).value);
      r == ParseOrError(Strip(if |line| >= |SquidPhrase| then line[|SquidPhrase|..] else ""))
  {
    var line :- FirstLine(stdout);
    var lower := Lower(line);
    ParseOrError(Strip(if |lower| >= |SquidPhrase| then lower[|SquidPhrase|..] else ""))
  }

  /** A line followed by a line break, or by nothing, is the first line. */
  lemma {:induction false} LineHeadOfLine(line: string, tail: string)
    requires forall i :: 0 <= i < |line| ==> !IsLineBreak(line[i])
    requires tail == "" || IsLineBreak(tail[0])
    ensures LineHead(line + tail) == line
    decreases |line|
  {
    if |line| == 0 {
      assert line + tail == tail;
    } else {
      assert (line + tail)[0] == line[0];
      assert (line + tail)[1..] == line[1..] + tail;
      LineHeadOfLine(line[1..], tail);
      assert [line[0]] + line[1..] == line;
    }
  }

  /** The banner's phrase lower-cases to `SquidPhrase`, and a version's
      characters are left alone. */
  lemma LowerBanner(f: string)
    requires forall i :: 0 <= i < |f| ==> FormatChar(f[i])
    ensures Lower("Squid Cache: Version " + f) == SquidPhrase + f
  {
    var head := "Squid Cache: Version " + f;
    assert forall i :: 21 <= i < |head| ==> head[i] == f[i - 21];
  }

  /** Squid's banner, whatever follows it on later lines, reads back as
      the version it names. */
  lemma SquidVersionOfBanner(v: Version, tail: string)
    requires |v.release| >= 1
    requires tail == "" || IsLineBreak(tail[0])
    ensures SquidVersion("Squid Cache: Version " + Format(v) + tail) == Ok(v)
  {
    FormatAlphabet(v);
    BannerVersionText(Format(v), tail);
    ParseFormat(v);
  }

  /** The banner line's version text is what `squid -v` reads, untouched
      by lower-casing and stripping. */
  lemma BannerVersionText(f: string, tail: string)
    requires forall i :: 0 <= i < |f| ==> FormatChar(f[i])
    requires tail == "" || IsLineBreak(tail[0])
    ensures SquidVersion("Squid Cache: Version " + f + tail) == ParseOrError(f)
  {
    BannerFirstLine(f, tail);
    LowerBanner(f);
    assert (SquidPhrase + f)[|SquidPhrase|..] == f;
    assert Strip(f) == f by {
      if |f| > 0 {
        assert FormatChar(f[0]) && FormatChar(f[|f| - 1]);
      }
      StripUnchanged(f);
    }
  }

  /** The banner is the first line of the output. */
  lemma BannerFirstLine(f: string, tail: string)
    requires forall i :: 0 <= i < |f| ==> FormatChar(f[i])
    requires tail == "" || IsLineBreak(tail[0])
    ensures FirstLine("Squid Cache: Version " + f + tail) == Ok("Squid Cache: Version " + f)
  {
    var head := "Squid Cache: Version " + f;
    forall i | 0 <= i < |head| ensures !IsLineBreak(head[i]) {
      if i >= 21 {
        assert head[i] == f[i - 21];
        assert FormatChar(f[i - 21]);
      }
    }
    LineHeadOfLine(head, tail);
    assert head + tail == "Squid Cache: Version " + f + tail;
  }

  // ---------------------------------------------------------------------
  // search_units

  /** `search_units(cfg, repo, criteria, response_handler)`: posts the
      criteria, `{}` when they are null (Python's `None`, also what an
      omitted argument is), to the repository's unit search, with
      `json_handler` by default. The repository's `_href` is read as
      `urljoin` reads it. */
  function SearchUnits(repo: Json, criteria: Json, handler: Option<Api.Handler>): (r: Result<Api.Call>)
    ensures r.Ok? <==> JoinArgAt(repo, "_href").Ok?
    ensures r.Ok? ==> r.value.verb == "POST" && r.value.url == UrlJoin(JoinArgAt(repo, "_href").value, "search/units/")
    ensures JoinArgAt(repo, "_href").Err? ==> r == Err(JoinArgAt(repo, "_href").error)
    ensures r.Ok? && !Truthy(Subscript(repo, "_href").value) ==> r.value.url == "search/units/"
    ensures r.Ok? ==> r.value.body == Some(JObj([("criteria", if criteria != JNull then criteria else JObj([]))]))
    ensures r.Ok? ==> r.value.handler == if handler.Some? then handler.value else Api.JsonHandler
  {
    var href :- JoinArgAt(repo, "_href");
    var c := if criteria != JNull then criteria else JObj([]);
    Ok(Api.Call("POST", UrlJoin(href, "search/units/"), Some(JObj([("criteria", c)])),
      if handler.Some? then handler.value else Api.JsonHandler))
  }
}
