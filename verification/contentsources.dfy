/** The content source file body of the Pulp 2 RPM content source tests
    (`_gen_content_source_body` in
    pulp_smash/tests/pulp2/rpm/api_v2/test_content_sources.py): a section
    header naming the source, then one `key: value` line per setting,
    with defaults for the settings not given.

    Keyword argument values are taken as the text `str()` gives them; the
    random values are parameters. */
module ContentSources {
  import opened Results
  import opened Strs
  import opened Json
  import opened Urls

  /** The fixtures base URL forced onto HTTPS:
      `urlunsplit(('https',) + urlsplit(url)[1:])`. */
  function HttpsUrl(url: string): (r: string)
    ensures UrlSplit(url).netloc != "" ==>
      UrlSplit(r) == UrlSplit(url).(scheme := "https")
  {
    var parts := UrlSplit(url);
    var https := parts.(scheme := "https");
    assert parts.netloc != "" ==> UrlSplit(UrlUnsplit(https)) == https by {
      if parts.netloc != "" {
        HttpSchemes();
        SplitUnsplitRooted(https);
        SplitPathRooted(url);
      }
    }
    UrlUnsplit(https)
  }

  /** The settings given a default when missing, in the order they are
      added: the fixtures URL over HTTPS, enabled, a random name, the
      unsigned RPM fixtures and the `yum` type. */
  function Defaults(name: string, baseUrl: string): Dict<string> {
    [("base_url", baseUrl), ("enabled", "1"), ("name", name), ("paths", "rpm-unsigned/"), ("type", "yum")]
  }

  /** The keys among `keys` that `d` lacks, in order. */
  function MissingKeys(d: Dict<string>, keys: seq<string>): (r: seq<string>)
    ensures forall k :: k in r <==> k in keys && !HasKey(d, k)
    decreases |keys|
  {
    if |keys| == 0 then []
    else (if HasKey(d, keys[0]) then [] else [keys[0]]) + MissingKeys(d, keys[1..])
  }

  /** A key added to a dict is missing from it no more. */
  lemma {:induction false} MissingAfterAdd(d: Dict<string>, k: string, v: string, keys: seq<string>)
    requires !HasKey(d, k) && k !in keys
    ensures MissingKeys(Set(d, k, v), keys) == MissingKeys(d, keys)
    decreases |keys|
  {
    if |keys| > 0 {
      MissingAfterAdd(d, k, v, keys[1..]);
      assert Keys(Set(d, k, v)) == Keys(d) + [k];
      assert HasKey(Set(d, k, v), keys[0]) <==> HasKey(d, keys[0]);
    }
  }

  /** `if key not in kwargs: kwargs[key] = default` for each default in
      turn. */
  function AddDefaults(d: Dict<string>, defaults: Dict<string>): Dict<string>
    decreases |defaults|
  {
    if |defaults| == 0 then d
    else
      var (k, v) := defaults[0];
      AddDefaults(if HasKey(d, k) then d else Set(d, k, v), defaults[1..])
  }

  /** The keys of a dict's tail follow its first key, which a well-formed
      dict does not repeat. */
  lemma KeysTail(defaults: Dict<string>)
    requires DistinctKeys(defaults) && |defaults| > 0
    ensures Keys(defaults) == [defaults[0].0] + Keys(defaults[1..])
    ensures DistinctKeys(defaults[1..]) && defaults[0].0 !in Keys(defaults[1..])
  {
    assert Keys(defaults[1..]) == Keys(defaults)[1..];
  }

  /** After the defaults are added, a key the dict had keeps its value, a
      missing key has its default, and no other key appears. */
  lemma {:induction false} AddDefaultsGet(d: Dict<string>, defaults: Dict<string>, k: string)
    requires DistinctKeys(defaults)
    ensures Get(AddDefaults(d, defaults), k) == if HasKey(d, k) then Get(d, k) else Get(defaults, k)
    decreases |defaults|
  {
    if |defaults| > 0 {
      var (k0, v0) := defaults[0];
      var tail := defaults[1..];
      KeysTail(defaults);
      if HasKey(d, k0) {
        AddDefaultsGet(d, tail, k);
      } else {
        var d' := Set(d, k0, v0);
        AddDefaultsGet(d', tail, k);
        SetGet(d, k0, v0, k);
        assert HasKey(d', k) <==> HasKey(d, k) || k == k0 by {
          assert Keys(d') == Keys(d) + [k0];
        }
        assert k == k0 ==> !HasKey(tail, k);
        assert Get(tail, k).Some? <==> HasKey(tail, k);
      }
    }
  }

  /** The first key of a list is missing or not, then the rest are. */
  lemma MissingKeysCons(d: Dict<string>, keys: seq<string>)
    requires |keys| > 0
    ensures MissingKeys(d, keys) == (if HasKey(d, keys[0]) then [] else [keys[0]]) + MissingKeys(d, keys[1..])
  {
  }

  /** The added defaults follow the dict's keys, in their own order. */
  lemma {:induction false} AddDefaultsKeys(d: Dict<string>, defaults: Dict<string>)
    requires DistinctKeys(defaults)
    ensures Keys(AddDefaults(d, defaults)) == Keys(d) + MissingKeys(d, Keys(defaults))
    decreases |defaults|
  {
    if |defaults| > 0 {
      var (k0, v0) := defaults[0];
      var tail := defaults[1..];
      KeysTail(defaults);
      MissingKeysCons(d, Keys(defaults));
      var d' := if HasKey(d, k0) then d else Set(d, k0, v0);
      AddDefaultsKeys(d', tail);
      if !HasKey(d, k0) {
        MissingAfterAdd(d, k0, v0, Keys(tail));
        AppendAssoc(Keys(d), [k0], MissingKeys(d, Keys(tail)));
      }
    }
  }

  /** The settings written after the header: the keyword arguments without
      `source_id`, in their order, then the defaults of the missing
      settings, in the order of `Defaults`. A given setting wins over its
      default. */
  function Settings(kwargs: Dict<string>, name: string, baseUrl: string): (r: Dict<string>)
    ensures !HasKey(r, "source_id")
    ensures forall k :: k != "source_id" && HasKey(kwargs, k) ==> Get(r, k) == Get(kwargs, k)
    ensures forall k :: !HasKey(kwargs, k) ==> Get(r, k) == Get(Defaults(name, baseUrl), k)
    ensures forall k :: HasKey(r, k) <==> HasKey(Defaults(name, baseUrl), k) || (HasKey(kwargs, k) && k != "source_id")
    ensures Keys(r) == Keys(Remove(kwargs, "source_id")) + MissingKeys(Remove(kwargs, "source_id"), Keys(Defaults(name, baseUrl)))
  {
    var rest := Remove(kwargs, "source_id");
    var defaults := Defaults(name, baseUrl);
    assert Keys(defaults) == ["base_url", "enabled", "name", "paths", "type"];
    assert !HasKey(defaults, "source_id");
    forall k | k != "source_id" ensures HasKey(rest, k) <==> HasKey(kwargs, k) {
      assert Get(rest, k).Some? <==> Get(kwargs, k).Some?;
    }
    var r := AddDefaults(rest, defaults);
    AddDefaultsKeys(rest, defaults);
    forall k
      ensures Get(r, k) == if HasKey(rest, k) then Get(rest, k) else Get(defaults, k)
      ensures HasKey(r, k) <==> HasKey(defaults, k) || (HasKey(kwargs, k) && k != "source_id")
    {
      AddDefaultsGet(rest, defaults, k);
      assert Get(r, k).Some? <==> HasKey(r, k);
      assert Get(rest, k).Some? <==> HasKey(rest, k);
      assert Get(defaults, k).Some? <==> HasKey(defaults, k);
    }
    r
  }

  /** A setting's line. */
  function Line(entry: (string, string)): string {
    entry.0 + ": " + entry.1
  }

  /** What writing each line followed by a newline produces. */
  function Written(lines: seq<string>): string
    decreases |lines|
  {
    if |lines| == 0 then "" else lines[0] + "\n" + Written(lines[1..])
  }

  /** Writing lines is joining them, and an empty last piece, by newlines. */
  lemma {:induction false} WrittenJoin(lines: seq<string>)
    ensures Written(lines) == Join(lines + [""], "\n")
    decreases |lines|
  {
    if |lines| > 0 {
      WrittenJoin(lines[1..]);
      assert (lines + [""])[1..] == lines[1..] + [""];
    }
  }

  /** The file: the header `[sourceId]`, then each setting as a
      `key: value` line, every line ending in a newline. */
  function Body(sourceId: string, settings: Dict<string>): (r: string)
    ensures StartsWith(r, "[" + sourceId + "]\n")
  {
    var header := "[" + sourceId + "]";
    var lines := seq(|settings|, i requires 0 <= i < |settings| => Line(settings[i]));
    var r := Written([header] + lines);
    assert r == header + "\n" + Written(lines) by {
      assert ([header] + lines)[1..] == lines;
    }
    assert r[..|header + "\n"|] == header + "\n";
    r
  }

  /** With no newline inside a name or value, the file reads back line by
      line: the header, then each setting as `key: value`, then the empty
      text after the final newline. */
  lemma BodyLines(sourceId: string, settings: Dict<string>)
    requires '\n' !in sourceId
    requires forall i :: 0 <= i < |settings| ==> '\n' !in Line(settings[i])
    ensures
      Split(Body(sourceId, settings), '\n')
        == ["[" + sourceId + "]"] + seq(|settings|, i requires 0 <= i < |settings| => Line(settings[i])) + [""]
  {
    var header := "[" + sourceId + "]";
    var lines := seq(|settings|, i requires 0 <= i < |settings| => Line(settings[i]));
    WrittenJoin([header] + lines);
    var parts := [header] + lines + [""];
    forall i | 0 <= i < |parts| ensures '\n' !in parts[i] {
      if i == 0 {
        assert forall k :: 0 <= k < |header| ==> header[k] == '[' || header[k] == ']' || header[k] in sourceId;
      } else if i <= |lines| {
        assert parts[i] == lines[i - 1];
      }
    }
    SplitJoin(parts, '\n');
  }

  /** The section name: the `source_id` argument or the random value. */
  function SourceId(kwargs: Dict<string>, sourceUuid: string): (r: string)
    ensures HasKey(kwargs, "source_id") ==> Some(r) == Get(kwargs, "source_id")
    ensures !HasKey(kwargs, "source_id") ==> r == sourceUuid
  {
    match Get(kwargs, "source_id")
    case Some(id) => id
    case None => sourceUuid
  }

  /** `_gen_content_source_body(**kwargs)`, the two `uuid4()` values and
      the fixtures base URL given: the header names the source, and the
      lines after it are the settings, where `source_id` never appears. */
  function ContentSourceBody(kwargs: Dict<string>, sourceUuid: string, nameUuid: string, fixturesUrl: string): (r: string)
    ensures StartsWith(r, "[" + SourceId(kwargs, sourceUuid) + "]\n")
  {
    Body(SourceId(kwargs, sourceUuid), Settings(kwargs, nameUuid, HttpsUrl(fixturesUrl)))
  }
}
