/** The parts of `urllib.parse` the modelled code relies on: `urlsplit`,
    `urlunsplit`, the `hostname` attribute of a split result, and `urljoin`
    reduced to the reference-resolution steps of RFC 3986 section 5.2.2 with
    the merge of section 5.2.3 (no dot-segment removal). */
module Urls {
  import opened Results
  import opened Strs
  import Json

  /** The five-tuple `urlsplit` returns. */
  datatype SplitResult = SplitResult(scheme: string, netloc: string, path: string, query: string, fragment: string)

  /** Schemes whose URLs carry a `//netloc` part. */
  const UsesNetloc: set<string> := {"", "ftp", "http", "gopher", "nntp", "telnet", "imap", "wais", "file", "mms",
    "https", "shttp", "snews", "prospero", "rtsp", "rtspu", "rsync", "svn", "svn+ssh", "sftp", "nfs", "git",
    "git+ssh", "ws", "wss"}

  /** Schemes for which relative references are resolved against a base. */
  const UsesRelative: set<string> := {"", "ftp", "http", "gopher", "nntp", "imap", "wais", "file", "https",
    "shttp", "mms", "prospero", "rtsp", "rtspu", "sftp", "svn", "svn+ssh", "ws", "wss"}

  predicate IsAlpha(c: char) {
    'a' <= c <= 'z' || 'A' <= c <= 'Z'
  }

  predicate IsSchemeChar(c: char) {
    IsAlpha(c) || IsDigit(c) || c == '+' || c == '-' || c == '.'
  }

  /** A scheme as `urlsplit` recognises one: a letter, then scheme characters. */
  predicate ValidScheme(s: string) {
    |s| > 0 && IsAlpha(s[0]) && forall i :: 0 <= i < |s| ==> IsSchemeChar(s[i])
  }

  /** A scheme as `urlsplit` returns one: valid and in lower case. */
  predicate LowerScheme(s: string) {
    ValidScheme(s) && forall i :: 0 <= i < |s| ==> !('A' <= s[i] <= 'Z')
  }

  lemma HttpSchemes()
    ensures LowerScheme("http") && LowerScheme("https")
  {
    assert forall i :: 0 <= i < |"https"| ==> IsAlpha("https"[i]);
  }

  predicate IsDelim(c: char) {
    c == '/' || c == '?' || c == '#'
  }

  /** Index of the first '/', '?' or '#' in `s`, or `|s|`: where a netloc ends. */
  function DelimIndex(s: string): (i: nat)
    ensures i <= |s|
    ensures forall k :: 0 <= k < i ==> !IsDelim(s[k])
    ensures i < |s| ==> IsDelim(s[i])
    decreases |s|
  {
    if |s| == 0 || IsDelim(s[0]) then 0 else 1 + DelimIndex(s[1..])
  }

  /** Index of the ':' ending a scheme prefix of `url`, or -1 when there is none. */
  function SchemeEnd(url: string): (i: int)
    ensures -1 <= i < |url|
    ensures i >= 0 ==> url[i] == ':' && ValidScheme(url[..i])
  {
    var i := IndexOf(url, ':');
    if i > 0 && ValidScheme(url[..i]) then i else -1
  }

  /** `s.partition(c)` */
  function Partition(s: string, c: char): (r: (string, bool, string))
    ensures r.1 <==> c in s
    ensures r.1 ==> s == r.0 + [c] + r.2 && c !in r.0
    ensures !r.1 ==> r.0 == s && r.2 == ""
  {
    var i := IndexOf(s, c);
    if i < 0 then (s, false, "")
    else
      assert s == s[..i] + [c] + s[i + 1..];
      (s[..i], true, s[i + 1..])
  }

  /** Both sides of a partition hold only characters of the text. */
  lemma PartitionIn(s: string, c: char, x: char)
    ensures x in Partition(s, c).0 ==> x in s
    ensures x in Partition(s, c).2 ==> x in s
  {
    var (before, found, after) := Partition(s, c);
    if found {
      assert s == before + [c] + after;
      if x in after {
        var k :| 0 <= k < |after| && after[k] == x;
        assert s[|before| + 1 + k] == x;
      }
    }
  }

  /** What precedes the first `c` has only characters of the text. */
  lemma PartitionPrefix(s: string, c: char)
    ensures forall d :: d in Partition(s, c).0 ==> d in s
  {
    var r := Partition(s, c);
    if r.1 {
      assert s == r.0 + ([c] + r.2);
    }
  }

  /** Partitioning at the first `c` finds the `c` right after a prefix free of it. */
  lemma PartitionAt(a: string, b: string, c: char)
    requires c !in a
    ensures Partition(a + [c] + b, c) == (a, true, b)
  {
    IndexOfAt(a, [c] + b, c);
    assert a + [c] + b == a + ([c] + b);
    assert (a + [c] + b)[..|a|] == a;
    assert (a + [c] + b)[|a| + 1..] == b;
  }

  /** The scheme (lower-cased) and the rest of a URL; no scheme unless the
      text before the first ':' is a valid one. */
  function SplitScheme(url: string): (r: (string, string))
    ensures r.0 == "" || LowerScheme(r.0)
    ensures r.0 == "" ==> r.1 == url
  {
    var ci := SchemeEnd(url);
    if ci >= 0 then (Lower(url[..ci]), url[ci + 1..]) else ("", url)
  }

  lemma SplitSchemeAt(scheme: string, rest: string)
    requires LowerScheme(scheme)
    ensures SplitScheme(scheme + ":" + rest) == (scheme, rest)
  {
    assert ':' !in scheme by {
      forall k | 0 <= k < |scheme| ensures scheme[k] != ':' {
        assert IsSchemeChar(scheme[k]);
      }
    }
    IndexOfAt(scheme, ":" + rest, ':');
    var url := scheme + ":" + rest;
    assert url == scheme + (":" + rest);
    assert url[..|scheme|] == scheme;
    assert url[|scheme| + 1..] == rest;
    assert Lower(scheme) == scheme;
  }

  /** The netloc after a leading "//" (up to the first '/', '?' or '#') and
      what follows it. */
  function SplitNetloc(rest: string): (r: (string, string))
    ensures forall k :: 0 <= k < |r.0| ==> !IsDelim(r.0[k])
    ensures !StartsWith(rest, "//") ==> r == ("", rest)
  {
    if StartsWith(rest, "//") then
      var after := rest[2..];
      var d := DelimIndex(after);
      (after[..d], after[d..])
    else ("", rest)
  }

  lemma SplitNetlocAt(netloc: string, tail: string)
    requires forall k :: 0 <= k < |netloc| ==> !IsDelim(netloc[k])
    requires tail == "" || IsDelim(tail[0])
    ensures SplitNetloc("//" + netloc + tail) == (netloc, tail)
  {
    var rest := "//" + netloc + tail;
    assert rest[..2] == "//";
    var after := rest[2..];
    assert after == netloc + tail;
    assert forall k :: 0 <= k < |netloc| ==> after[k] == netloc[k];
    if |tail| > 0 {
      assert after[|netloc|] == tail[0];
    }
    assert DelimIndex(after) == |netloc|;
    assert after[..|netloc|] == netloc;
    assert after[|netloc|..] == tail;
  }

  /** `urlsplit(url)` */
  function UrlSplit(url: string): (r: SplitResult)
    ensures r.scheme == "" || LowerScheme(r.scheme)
    ensures forall k :: 0 <= k < |r.netloc| ==> !IsDelim(r.netloc[k])
    ensures '?' !in r.path && '#' !in r.path
    ensures '#' !in r.query
  {
    var (scheme, rest) := SplitScheme(url);
    var (netloc, rest2) := SplitNetloc(rest);
    var (rest3, _, fragment) := Partition(rest2, '#');
    var (path, _, query) := Partition(rest3, '?');
    PartitionIn(rest3, '?', '#');
    SplitResult(scheme, netloc, path, query, fragment)
  }

  /** `urlunsplit(parts)`; a netloc, or a scheme that uses one, is written
      after "//", and a relative path after a netloc gets a leading "/". */
  function UrlUnsplit(s: SplitResult): (r: string)
    ensures s.scheme != "" ==> StartsWith(r, s.scheme + ":")
    ensures s.fragment != "" ==> EndsWith(r, "#" + s.fragment)
    ensures s.scheme == "" && s.netloc == "" && s.query == "" && s.fragment == "" ==> r == s.path
  {
    var path :=
      if s.netloc != "" || (s.scheme != "" && s.scheme in UsesNetloc && !StartsWith(s.path, "//")) then
        "//" + s.netloc + (if s.path != "" && s.path[0] != '/' then "/" + s.path else s.path)
      else s.path;
    var withScheme := if s.scheme != "" then s.scheme + ":" + path else path;
    var withQuery := WithPart(withScheme, '?', s.query);
    assert s.scheme != "" ==> withQuery[..|s.scheme + ":"|] == s.scheme + ":";
    assert s.scheme != "" ==> WithPart(withQuery, '#', s.fragment)[..|s.scheme + ":"|] == s.scheme + ":";
    WithPart(withQuery, '#', s.fragment)
  }

  /** The parts of an absolute URL that `urlunsplit` writes unambiguously:
      a scheme and a netloc, and a path that is empty or starts with "/". */
  predicate AbsoluteParts(s: SplitResult) {
    && LowerScheme(s.scheme)
    && s.netloc != ""
    && (forall k :: 0 <= k < |s.netloc| ==> !IsDelim(s.netloc[k]))
    && (s.path == "" || s.path[0] == '/')
    && '?' !in s.path && '#' !in s.path
    && '#' !in s.query
  }

  lemma LowerOfLowerScheme(s: string)
    requires LowerScheme(s)
    ensures Lower(s) == s
  {
  }

  /** `s`, followed by `c` and `x` when `x` is non-empty: how `urlunsplit`
      appends a query or a fragment. */
  function WithPart(s: string, c: char, x: string): string {
    if x != "" then s + [c] + x else s
  }

  lemma PartitionWithPart(s: string, c: char, x: string)
    requires c !in s
    ensures Partition(WithPart(s, c, x), c) == (s, x != "", x)
  {
    if x != "" {
      PartitionAt(s, x, c);
    }
  }

  lemma WithPartExcludes(s: string, c: char, x: string, d: char)
    requires d !in s && d !in x && c != d
    ensures d !in WithPart(s, c, x)
  {
  }

  /** What `urlunsplit` writes after the netloc. */
  function Tail(path: string, query: string, fragment: string): string {
    WithPart(WithPart(path, '?', query), '#', fragment)
  }

  /** Splitting an unsplit absolute URL gives back its parts. */
  lemma SplitUnsplit(s: SplitResult)
    requires AbsoluteParts(s)
    ensures UrlSplit(UrlUnsplit(s)) == s
  {
    var tail := Tail(s.path, s.query, s.fragment);
    assert UrlUnsplit(s) == s.scheme + ":" + ("//" + s.netloc + tail);
    SplitSchemeAt(s.scheme, "//" + s.netloc + tail);
    assert tail == "" || IsDelim(tail[0]);
    SplitNetlocAt(s.netloc, tail);
    WithPartExcludes(s.path, '?', s.query, '#');
    PartitionWithPart(WithPart(s.path, '?', s.query), '#', s.fragment);
    PartitionWithPart(s.path, '?', s.query);
  }

  /** With a host and nothing after it, `urlunsplit` writes scheme://netloc. */
  lemma UnsplitOrigin(scheme: string, netloc: string)
    requires scheme != "" && netloc != ""
    ensures UrlUnsplit(SplitResult(scheme, netloc, "", "", "")) == scheme + "://" + netloc
  {
    UnsplitOriginPath(scheme, netloc, "");
  }

  /** With a host and an absolute path, `urlunsplit` writes scheme://netloc/path. */
  lemma UnsplitOriginPath(scheme: string, netloc: string, path: string)
    requires scheme != "" && netloc != ""
    requires path == "" || path[0] == '/'
    ensures UrlUnsplit(SplitResult(scheme, netloc, path, "", "")) == scheme + "://" + netloc + path
  {
    var w := scheme + ":" + ("//" + netloc + path);
    assert WithPart(w, '?', "") == w;
    assert WithPart(w, '#', "") == w;
    assert w == scheme + "://" + netloc + path;
  }

  /** Splitting scheme://netloc gives back the scheme and the netloc. */
  lemma SplitOrigin(scheme: string, netloc: string)
    requires LowerScheme(scheme) && netloc != ""
    requires forall k :: 0 <= k < |netloc| ==> !IsDelim(netloc[k])
    ensures UrlSplit(scheme + "://" + netloc) == SplitResult(scheme, netloc, "", "", "")
  {
    var parts := SplitResult(scheme, netloc, "", "", "");
    UnsplitOrigin(scheme, netloc);
    SplitUnsplit(parts);
  }

  /** `s.rpartition(c)[2]`: what follows the last `c`, or all of `s`. */
  function AfterLast(s: string, c: char): (r: string)
    ensures c !in r
  {
    var i := LastIndexOf(s, c);
    if i < 0 then s else s[i + 1..]
  }

  /** What follows the last `c` starts right after it. */
  lemma AfterLastAt(s: string, c: char)
    ensures AfterLast(s, c) == s[LastIndexOf(s, c) + 1..]
  {
  }

  /** A text without `c` follows no `c`: it is all that follows the last. */
  lemma AfterLastAbsent(s: string, c: char)
    requires c !in s
    ensures AfterLast(s, c) == s
  {
    assert forall k :: 0 <= k < |s| ==> s[k] != c;
  }

  /** Splitting at `c` ends with what follows the last `c`, and yields a
      second piece exactly when `c` occurs. */
  lemma SplitAtLast(s: string, c: char)
    ensures |Split(s, c)| >= 2 <==> c in s
    ensures Split(s, c)[|Split(s, c)| - 1] == AfterLast(s, c)
    ensures c in s ==> Split(s, c) == Split(s[..LastIndexOf(s, c)], c) + [AfterLast(s, c)]
  {
    var i := LastIndexOf(s, c);
    if c in s {
      assert i >= 0;
      assert s == s[..i] + [c] + s[i + 1..];
      SplitConcat(s[..i], s[i + 1..], c);
      SplitWhole(s[i + 1..], c);
    } else {
      SplitWhole(s, c);
    }
  }

  /** The `hostname` attribute of a split result with this netloc: userinfo
      dropped, port dropped, brackets of an IPv6 literal removed, lower case
      up to a '%' zone id; `None` when that leaves nothing. */
  function Hostname(netloc: string): (r: Option<string>)
    ensures r.Some? ==> |r.value| > 0
  {
    var hostinfo := AfterLast(netloc, '@');
    var (_, bracketed, inside) := Partition(hostinfo, '[');
    var host := if bracketed then Partition(inside, ']').0 else Partition(hostinfo, ':').0;
    if host == "" then None
    else
      var (name, zoned, zone) := Partition(host, '%');
      Some(Lower(name) + (if zoned then "%" else "") + zone)
  }

  /** A plain host name: no userinfo, brackets, port, zone or upper case. */
  predicate PlainHost(h: string) {
    && |h| > 0
    && '@' !in h && '[' !in h && ':' !in h && '%' !in h
    && (forall k :: 0 <= k < |h| ==> !('A' <= h[k] <= 'Z'))
  }

  /** `hostname` of "host" and of "host:port" is the host. */
  lemma HostnameOfHostPort(h: string, port: string)
    requires PlainHost(h) && AllDigits(port)
    ensures Hostname(h) == Some(h)
    ensures Hostname(h + ":" + port) == Some(h)
  {
    assert Lower(h) == h;
    assert Lower(h) + "" + "" == h;
    var hp := h + ":" + port;
    forall k | 0 <= k < |hp| ensures hp[k] != '@' && hp[k] != '[' {
      if k < |h| {
        assert hp[k] == h[k];
      } else if k > |h| {
        assert hp[k] == port[k - |h| - 1];
        assert IsDigit(port[k - |h| - 1]);
      }
    }
    assert AfterLast(hp, '@') == hp;
    assert AfterLast(h, '@') == h;
    PartitionAt(h, port, ':');
  }

  /** A path that `urlsplit` leaves entirely in the path part: no scheme
      prefix, netloc, query or fragment. */
  predicate PlainPath(p: string) {
    ':' !in p && '?' !in p && '#' !in p && !StartsWith(p, "//")
  }

  lemma SplitPlainPath(p: string)
    requires PlainPath(p)
    ensures UrlSplit(p) == SplitResult("", "", p, "", "")
  {
    IndexOfAbsent(p, ':');
    IndexOfAbsent(p, '#');
    IndexOfAbsent(p, '?');
  }

  /** RFC 3986 section 5.2.3 merge: the reference replaces the last segment
      of the base path ("/" + reference when the base path is empty). */
  function Merge(basePath: string, ref: string): string {
    if basePath == "" then "/" + ref
    else basePath[..LastIndexOf(basePath, '/') + 1] + ref
  }

  /** `urljoin(base, url)`: an empty side yields the other, and a reference
      with a scheme of its own, other than the base's, is kept as it is. */
  function UrlJoin(base: string, url: string): (r: string)
    ensures base == "" ==> r == url
    ensures url == "" ==> r == base
    ensures base != "" && UrlSplit(url).scheme != "" && UrlSplit(url).scheme != UrlSplit(base).scheme ==> r == url
    ensures base != "" && url != "" && UrlSplit(base).scheme !in UsesRelative ==> r == url
  {
    if base == "" then url
    else if url == "" then base
    else
      var b := UrlSplit(base);
      var r := UrlSplit(url);
      var scheme := if r.scheme == "" then b.scheme else r.scheme;
      if scheme != b.scheme || scheme !in UsesRelative then url
      else if scheme in UsesNetloc && r.netloc != "" then
        UrlUnsplit(SplitResult(scheme, r.netloc, r.path, r.query, r.fragment))
      else
        var netloc := if scheme in UsesNetloc then b.netloc else r.netloc;
        if r.path == "" then
          UrlUnsplit(SplitResult(scheme, netloc, b.path, if r.query == "" then b.query else r.query, r.fragment))
        else
          var path := if r.path[0] == '/' then r.path else Merge(b.path, r.path);
          UrlUnsplit(SplitResult(scheme, netloc, path, r.query, r.fragment))
  }

  /** Joining a relative path to a directory-like path appends it:
      `urljoin("/pulp/api/v2/repositories/r/", "actions/publish/")`. */
  lemma JoinUnderDirectory(base: string, ref: string)
    requires PlainPath(base) && EndsWith(base, "/")
    requires PlainPath(ref) && ref != "" && ref[0] != '/'
    ensures UrlJoin(base, ref) == base + ref
  {
    SplitPlainPath(base);
    SplitPlainPath(ref);
    assert base[|base| - 1] == '/' by {
      assert base[|base| - 1] == base[|base| - |"/"|..][0];
    }
    assert Merge(base, ref) == base + ref by {
      assert LastIndexOf(base, '/') == |base| - 1;
      assert base[..|base|] == base;
    }
    assert UrlUnsplit(SplitResult("", "", base + ref, "", "")) == base + ref;
  }

  /** Joining an absolute path to a scheme://netloc origin appends it:
      `urljoin("https://pulp.example.com", "/pulp/api/v2/")`. */
  lemma JoinUnderOrigin(scheme: string, netloc: string, ref: string)
    requires AbsoluteParts(SplitResult(scheme, netloc, "", "", ""))
    requires scheme in UsesRelative && scheme in UsesNetloc
    requires PlainPath(ref) && ref != "" && ref[0] == '/'
    ensures UrlJoin(UrlUnsplit(SplitResult(scheme, netloc, "", "", "")), ref)
         == UrlUnsplit(SplitResult(scheme, netloc, "", "", "")) + ref
    ensures UrlUnsplit(SplitResult(scheme, netloc, "", "", "")) == scheme + "://" + netloc
  {
    var origin := SplitResult(scheme, netloc, "", "", "");
    var base := UrlUnsplit(origin);
    UnsplitOrigin(scheme, netloc);
    assert UrlSplit(base) == origin by {
      SplitUnsplit(origin);
    }
    assert UrlSplit(ref) == SplitResult("", "", ref, "", "") by {
      SplitPlainPath(ref);
    }
    assert UrlJoin(base, ref) == UrlUnsplit(SplitResult(scheme, netloc, ref, "", ""));
    UnsplitOriginPath(scheme, netloc, ref);
  }

  /** Joining an absolute path onto an absolute URL keeps the base's
      scheme and netloc, takes the reference's path, and drops the base's
      query and fragment. */
  lemma JoinAbsolutePath(base: string, ref: string)
    requires AbsoluteParts(UrlSplit(base))
    requires UrlSplit(base).scheme in UsesRelative && UrlSplit(base).scheme in UsesNetloc
    requires PlainPath(ref) && ref != "" && ref[0] == '/'
    ensures UrlSplit(UrlJoin(base, ref)) == SplitResult(UrlSplit(base).scheme, UrlSplit(base).netloc, ref, "", "")
  {
    var b := UrlSplit(base);
    var j := SplitResult(b.scheme, b.netloc, ref, "", "");
    assert base != "" by {
      assert UrlSplit("").netloc == "";
    }
    SplitPlainPath(ref);
    JoinRootedRef(base, ref);
    SplitUnsplit(j);
  }

  /** The case of `urljoin` that `JoinAbsolutePath` takes: a reference
      with neither scheme nor netloc whose path is rooted replaces the
      base's path, query and fragment. */
  lemma JoinRootedRef(base: string, ref: string)
    requires base != "" && ref != "" && ref[0] == '/'
    requires UrlSplit(base).scheme in UsesRelative && UrlSplit(base).scheme in UsesNetloc
    requires UrlSplit(ref) == SplitResult("", "", ref, "", "")
    ensures UrlJoin(base, ref) == UrlUnsplit(SplitResult(UrlSplit(base).scheme, UrlSplit(base).netloc, ref, "", ""))
  {
  }

  /** The path `urlunsplit` writes after a netloc: a relative path gets a
      leading "/". */
  function Rooted(path: string): (r: string)
    ensures r == "" || r[0] == '/'
    ensures path == "" || path[0] == '/' ==> r == path
  {
    if path != "" && path[0] != '/' then "/" + path else path
  }

  /** Splitting an unsplit URL with a scheme and a host gives back its
      parts, except that a relative path comes back rooted. */
  lemma SplitUnsplitRooted(s: SplitResult)
    requires LowerScheme(s.scheme) && s.netloc != ""
    requires forall k :: 0 <= k < |s.netloc| ==> !IsDelim(s.netloc[k])
    requires '?' !in s.path && '#' !in s.path && '#' !in s.query
    ensures UrlSplit(UrlUnsplit(s)) == s.(path := Rooted(s.path))
  {
    var t := s.(path := Rooted(s.path));
    assert '?' !in Rooted(s.path) && '#' !in Rooted(s.path);
    assert UrlUnsplit(s) == UrlUnsplit(t);
    SplitUnsplit(t);
  }

  /** After a netloc, `urlsplit` leaves a path that is empty or rooted. */
  lemma SplitPathRooted(url: string)
    requires UrlSplit(url).netloc != ""
    ensures Rooted(UrlSplit(url).path) == UrlSplit(url).path
  {
    var rest := SplitScheme(url).1;
    var rest2 := SplitNetloc(rest).1;
    var rest3 := Partition(rest2, '#').0;
    var path := Partition(rest3, '?').0;
    assert path == UrlSplit(url).path;
    SplitNetlocTail(rest);
    PartitionHead(rest2, '#');
    PartitionHead(rest3, '?');
  }

  /** What follows a netloc is empty or starts with a delimiter. */
  lemma SplitNetlocTail(rest: string)
    ensures SplitNetloc(rest).0 != "" ==> SplitNetloc(rest).1 == "" || IsDelim(SplitNetloc(rest).1[0])
  {
  }

  /** What precedes the first `c` starts as the text does. */
  lemma PartitionHead(s: string, c: char)
    ensures Partition(s, c).0 != "" ==> s != "" && Partition(s, c).0[0] == s[0]
  {
  }

  // ---------------------------------------------------------------------
  // urljoin on values read from JSON documents

  /** `urljoin(base, url)` on any two JSON values: a falsy side (None,
      False, 0, "", [], {}) yields the other side as it is; two strings
      are joined; a string beside another value raises `TypeError` (str
      and non-str arguments cannot be mixed), and two other values raise
      `AttributeError` (they have no `decode`). */
  function JoinJson(base: Json.Json, url: Json.Json): (r: Result<Json.Json>)
    ensures !Json.Truthy(base) ==> r == Ok(url)
    ensures Json.Truthy(base) && !Json.Truthy(url) ==> r == Ok(base)
    ensures base.JStr? && url.JStr? ==> r == Ok(Json.JStr(UrlJoin(base.s, url.s)))
    ensures r.Err? <==> Json.Truthy(base) && Json.Truthy(url) && !(base.JStr? && url.JStr?)
    ensures r.Err? ==> (r.error.TypeError? <==> base.JStr? || url.JStr?)
  {
    if !Json.Truthy(base) then Ok(url)
    else if !Json.Truthy(url) then Ok(base)
    else if base.JStr? && url.JStr? then Ok(Json.JStr(UrlJoin(base.s, url.s)))
    else if base.JStr? || url.JStr? then Err(TypeError("Cannot mix str and non-str arguments"))
    else Err(AttributeError("decode"))
  }

  /** A JSON value handed to `urljoin` beside a non-empty string, read as
      the path it stands for: a string as itself, and a falsy value as "",
      since `urljoin` returns the other argument for both. Any other value
      raises `TypeError`. */
  function JoinArg(v: Json.Json): (r: Result<string>)
    ensures r.Ok? <==> v.JStr? || !Json.Truthy(v)
    ensures v.JStr? ==> r == Ok(v.s)
    ensures r.Err? ==> r.error.TypeError?
  {
    if v.JStr? then Ok(v.s)
    else if !Json.Truthy(v) then Ok("")
    else Err(TypeError("Cannot mix str and non-str arguments"))
  }

  /** Reading a value with `JoinArg` and joining strings is `urljoin` on
      the value itself, on either side of a non-empty string, errors
      included. */
  lemma JoinArgAgrees(v: Json.Json, s: string)
    requires s != ""
    ensures JoinArg(v).Ok? ==> JoinJson(v, Json.JStr(s)) == Ok(Json.JStr(UrlJoin(JoinArg(v).value, s)))
    ensures JoinArg(v).Ok? ==> JoinJson(Json.JStr(s), v) == Ok(Json.JStr(UrlJoin(s, JoinArg(v).value)))
    ensures JoinArg(v).Err? ==> JoinJson(v, Json.JStr(s)) == Err(JoinArg(v).error)
    ensures JoinArg(v).Err? ==> JoinJson(Json.JStr(s), v) == Err(JoinArg(v).error)
  {
  }

  /** `v[k]` read for `urljoin`: a missing key raises as `v[k]` does, and
      the value is then read by `JoinArg`. */
  function JoinArgAt(v: Json.Json, k: string): (r: Result<string>)
    ensures r.Ok? <==> Json.Subscript(v, k).Ok? && JoinArg(Json.Subscript(v, k).value).Ok?
    ensures Json.Subscript(v, k).Err? ==> r == Err(Json.Subscript(v, k).error)
    ensures Json.Subscript(v, k).Ok? && JoinArg(Json.Subscript(v, k).value).Err? ==>
      r == Err(JoinArg(Json.Subscript(v, k).value).error)
    ensures Json.Subscript(v, k).Ok? && Json.Subscript(v, k).value.JStr? ==> r == Ok(Json.Subscript(v, k).value.s)
    ensures Json.Subscript(v, k).Ok? && !Json.Truthy(Json.Subscript(v, k).value) ==> r == Ok("")
  {
    var x :- Json.Subscript(v, k);
    JoinArg(x)
  }
}
