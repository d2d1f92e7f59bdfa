/** The part of `packaging.version.Version` the modelled code relies on: a
    version is an epoch and a release tuple ("Version scheme" of PEP 440),
    compared epoch first and then release segment by segment, with the
    shorter release padded with zeros, so "3" and "3.0" are equal. */
module Versions {
  import opened Results
  import Strs

  datatype Version = Version(epoch: nat, release: seq<nat>)

  /** `Version("<n>")` */
  function V(n: nat): Version {
    Version(0, [n])
  }

  /** Lexicographic comparison of release tuples with zero padding: -1, 0 or 1. */
  function CompareRelease(a: seq<nat>, b: seq<nat>): (c: int)
    ensures -1 <= c <= 1
    decreases |a| + |b|
  {
    if |a| == 0 && |b| == 0 then 0
    else
      var x := if |a| > 0 then a[0] else 0;
      var y := if |b| > 0 then b[0] else 0;
      if x < y then -1
      else if x > y then 1
      else CompareRelease(if |a| > 0 then a[1..] else [], if |b| > 0 then b[1..] else [])
  }

  /** Three-way comparison of two versions: -1, 0 or 1. */
  function Compare(a: Version, b: Version): (c: int)
    ensures -1 <= c <= 1
    ensures a.epoch != b.epoch ==> (c == -1 <==> a.epoch < b.epoch) && c != 0
  {
    if a.epoch < b.epoch then -1
    else if a.epoch > b.epoch then 1
    else CompareRelease(a.release, b.release)
  }

  /** `a < b` */
  predicate Lt(a: Version, b: Version) {
    Compare(a, b) < 0
  }

  /** `a <= b` */
  predicate Le(a: Version, b: Version) {
    Compare(a, b) <= 0
  }

  /** `a == b` */
  predicate Same(a: Version, b: Version) {
    Compare(a, b) == 0
  }

  lemma {:induction false} CompareReleaseFlip(a: seq<nat>, b: seq<nat>)
    ensures CompareRelease(a, b) == -CompareRelease(b, a)
    decreases |a| + |b|
  {
    if !(|a| == 0 && |b| == 0) {
      CompareReleaseFlip(if |a| > 0 then a[1..] else [], if |b| > 0 then b[1..] else []);
    }
  }

  /** Swapping the operands negates the comparison. */
  lemma CompareFlip(a: Version, b: Version)
    ensures Compare(a, b) == -Compare(b, a)
  {
    CompareReleaseFlip(a.release, b.release);
  }

  lemma {:induction false} CompareReleaseSelf(a: seq<nat>)
    ensures CompareRelease(a, a) == 0
    decreases |a|
  {
    if |a| > 0 {
      CompareReleaseSelf(a[1..]);
    }
  }

  lemma {:induction false} CompareReleaseTrans(a: seq<nat>, b: seq<nat>, c: seq<nat>)
    requires CompareRelease(a, b) <= 0 && CompareRelease(b, c) <= 0
    ensures CompareRelease(a, c) <= 0
    ensures CompareRelease(a, b) < 0 || CompareRelease(b, c) < 0 ==> CompareRelease(a, c) < 0
    decreases |a| + |b| + |c|
  {
    if |a| == 0 && |b| == 0 && |c| == 0 {
    } else {
      var ta := if |a| > 0 then a[1..] else [];
      var tb := if |b| > 0 then b[1..] else [];
      var tc := if |c| > 0 then c[1..] else [];
      var x := if |a| > 0 then a[0] else 0;
      var y := if |b| > 0 then b[0] else 0;
      var z := if |c| > 0 then c[0] else 0;
      assert CompareRelease(a, b) == if x < y then -1 else if x > y then 1 else CompareRelease(ta, tb) by {
        if |a| == 0 && |b| == 0 {
          CompareReleaseSelf(c);
        }
      }
      assert CompareRelease(b, c) == if y < z then -1 else if y > z then 1 else CompareRelease(tb, tc) by {
        if |b| == 0 && |c| == 0 {
          CompareReleaseSelf(a);
        }
      }
      assert CompareRelease(a, c) == if x < z then -1 else if x > z then 1 else CompareRelease(ta, tc) by {
        if |a| == 0 && |c| == 0 {
          assert x == 0 && z == 0;
          CompareReleaseSelf(b);
        }
      }
      if x == y && y == z {
        CompareReleaseTrans(ta, tb, tc);
      }
    }
  }

  /** `<=` on versions is transitive, and strict when either step is. */
  lemma CompareTrans(a: Version, b: Version, c: Version)
    requires Le(a, b) && Le(b, c)
    ensures Le(a, c)
    ensures Lt(a, b) || Lt(b, c) ==> Lt(a, c)
  {
    if a.epoch == b.epoch == c.epoch {
      CompareReleaseTrans(a.release, b.release, c.release);
    }
  }

  /** Every version equals itself, and `<=` is total. */
  lemma CompareTotal(a: Version, b: Version)
    ensures Same(a, a)
    ensures Le(a, b) || Le(b, a)
  {
    CompareReleaseSelf(a.release);
    CompareFlip(a, b);
  }

  lemma {:induction false} TrailingZeroRelease(r: seq<nat>)
    ensures CompareRelease(r, r + [0]) == 0
    decreases |r|
  {
    if |r| > 0 {
      assert (r + [0])[1..] == r[1..] + [0];
      TrailingZeroRelease(r[1..]);
    }
  }

  /** A trailing zero release segment does not change a version: "3" == "3.0". */
  lemma TrailingZero(e: nat, r: seq<nat>)
    ensures Same(Version(e, r), Version(e, r + [0]))
  {
    TrailingZeroRelease(r);
  }

  /** The release segments of a dotted string: each non-empty and all digits. */
  function ParseRelease(s: string): Option<seq<nat>> {
    var parts := Strs.Split(s, '.');
    if forall i :: 0 <= i < |parts| ==> |parts[i]| > 0 && Strs.AllDigits(parts[i])
    then Some(seq(|parts|, i requires 0 <= i < |parts| => Strs.DigitsValue(parts[i])))
    else None
  }

  /** `Version(s)` for strings of the form `[N!]N(.N)*`; `None` where
      `Version` raises `InvalidVersion`. */
  function Parse(s: string): (r: Option<Version>)
    ensures r.Some? ==> |r.value.release| >= 1
    ensures r.Some? && '!' !in s ==> r.value.epoch == 0
  {
    var bang := Strs.IndexOf(s, '!');
    if bang < 0 then
      match ParseRelease(s)
      case Some(r) => Some(Version(0, r))
      case None => None
    else
      var e := s[..bang];
      if |e| == 0 || !Strs.AllDigits(e) then None
      else
        match ParseRelease(s[bang + 1..])
        case Some(r) => Some(Version(Strs.DigitsValue(e), r))
        case None => None
  }

  /** `Version(s)` with the exception made explicit. */
  function ParseOrError(s: string): (r: Result<Version>)
    ensures r.Ok? <==> Parse(s).Some?
    ensures r.Err? ==> r.error == InvalidVersion(s)
  {
    match Parse(s)
    case Some(v) => Ok(v)
    case None => Err(InvalidVersion(s))
  }

  function ReleaseStrings(r: seq<nat>): (ss: seq<string>)
    ensures |ss| == |r|
  {
    seq(|r|, i requires 0 <= i < |r| => Strs.NatToString(r[i]))
  }

  /** `str(v)` for a version without pre-, post-, dev- or local parts. */
  function Format(v: Version): string {
    (if v.epoch > 0 then Strs.NatToString(v.epoch) + "!" else "")
    + Strs.Join(ReleaseStrings(v.release), ".")
  }

  lemma {:induction false} JoinOfDigitsHasNoBang(ss: seq<string>)
    requires forall i :: 0 <= i < |ss| ==> Strs.AllDigits(ss[i])
    ensures '!' !in Strs.Join(ss, ".")
    decreases |ss|
  {
    if |ss| > 1 {
      JoinOfDigitsHasNoBang(ss[1..]);
      Strs.DigitsExclude(ss[0], '!');
    } else if |ss| == 1 {
      Strs.DigitsExclude(ss[0], '!');
    }
  }

  lemma ParseReleaseFormat(r: seq<nat>)
    requires |r| >= 1
    ensures ParseRelease(Strs.Join(ReleaseStrings(r), ".")) == Some(r)
  {
    var ss := ReleaseStrings(r);
    forall i | 0 <= i < |ss| ensures '.' !in ss[i] {
      Strs.DigitsExclude(ss[i], '.');
    }
    Strs.SplitJoin(ss, '.');
    assert Strs.Split(Strs.Join(ss, "."), '.') == ss;
    assert forall i :: 0 <= i < |ss| ==> |ss[i]| > 0 && Strs.AllDigits(ss[i]);
    forall i | 0 <= i < |r| ensures Strs.DigitsValue(ss[i]) == r[i] {
      Strs.DigitsValueOfNatToString(r[i]);
    }
    assert seq(|ss|, i requires 0 <= i < |ss| => Strs.DigitsValue(ss[i])) == r;
  }

  /** Parsing what `Format` writes gives the version back. */
  lemma ParseFormat(v: Version)
    requires |v.release| >= 1
    ensures Parse(Format(v)) == Some(v)
  {
    var rel := Strs.Join(ReleaseStrings(v.release), ".");
    JoinOfDigitsHasNoBang(ReleaseStrings(v.release));
    ParseReleaseFormat(v.release);
    var s := Format(v);
    if v.epoch == 0 {
      assert s == rel;
      assert Strs.IndexOf(s, '!') < 0;
    } else {
      var e := Strs.NatToString(v.epoch);
      assert s == e + "!" + rel;
      Strs.DigitsExclude(e, '!');
      assert Strs.IndexOf(s, '!') == |e| by {
        assert s[|e|] == '!';
        assert forall k :: 0 <= k < |e| ==> s[k] == e[k];
      }
      assert s[..|e|] == e;
      assert s[|e| + 1..] == rel;
      Strs.DigitsValueOfNatToString(v.epoch);
    }
  }

  /** A character `Format` can write: a digit, a dot or the epoch mark. */
  predicate FormatChar(c: char) {
    Strs.IsDigit(c) || c == '.' || c == '!'
  }

  lemma {:induction false} JoinOfDigitsAlphabet(ss: seq<string>)
    requires forall i :: 0 <= i < |ss| ==> Strs.AllDigits(ss[i])
    ensures forall i :: 0 <= i < |Strs.Join(ss, ".")| ==> FormatChar(Strs.Join(ss, ".")[i])
    decreases |ss|
  {
    if |ss| > 1 {
      JoinOfDigitsAlphabet(ss[1..]);
      var j := Strs.Join(ss, ".");
      assert j == ss[0] + "." + Strs.Join(ss[1..], ".");
      forall i | 0 <= i < |j| ensures FormatChar(j[i]) {
        if i < |ss[0]| {
          assert j[i] == ss[0][i];
        } else if i == |ss[0]| {
          assert j[i] == '.';
        } else {
          assert j[i] == Strs.Join(ss[1..], ".")[i - |ss[0]| - 1];
        }
      }
    }
  }

  /** `Format` writes digits, dots and the epoch mark only, and starts and
      ends with a digit. */
  lemma FormatAlphabet(v: Version)
    requires |v.release| >= 1
    ensures |Format(v)| > 0
    ensures forall i :: 0 <= i < |Format(v)| ==> FormatChar(Format(v)[i])
    ensures Strs.IsDigit(Format(v)[0]) && Strs.IsDigit(Format(v)[|Format(v)| - 1])
  {
    var ss := ReleaseStrings(v.release);
    var rel := Strs.Join(ss, ".");
    JoinOfDigitsAlphabet(ss);
    JoinEnds(ss);
    var s := Format(v);
    if v.epoch > 0 {
      var e := Strs.NatToString(v.epoch);
      assert s == e + "!" + rel;
      forall i | 0 <= i < |s| ensures FormatChar(s[i]) {
        if i < |e| {
          assert s[i] == e[i];
        } else if i == |e| {
          assert s[i] == '!';
        } else {
          assert s[i] == rel[i - |e| - 1];
        }
      }
      assert s[0] == e[0];
      assert s[|s| - 1] == rel[|rel| - 1];
    } else {
      assert s == rel;
    }
  }

  /** A join of non-empty digit runs starts and ends with a digit. */
  lemma {:induction false} JoinEnds(ss: seq<string>)
    requires |ss| >= 1
    requires forall i :: 0 <= i < |ss| ==> |ss[i]| >= 1 && Strs.AllDigits(ss[i])
    ensures |Strs.Join(ss, ".")| > 0
    ensures Strs.IsDigit(Strs.Join(ss, ".")[0]) && Strs.IsDigit(Strs.Join(ss, ".")[|Strs.Join(ss, ".")| - 1])
    decreases |ss|
  {
    if |ss| > 1 {
      JoinEnds(ss[1..]);
      var j := Strs.Join(ss, ".");
      var t := Strs.Join(ss[1..], ".");
      assert j == ss[0] + "." + t;
      assert j[0] == ss[0][0];
      assert j[|j| - 1] == t[|t| - 1];
    }
  }

  /** The version `read` assumes when the settings give none. */
  lemma ParseDefaultVersion()
    ensures Parse("1!0") == Some(Version(1, [0]))
  {
    ParseFormat(Version(1, [0]));
    assert Strs.NatToString(1) == "1";
    assert ReleaseStrings([0]) == ["0"];
    assert Format(Version(1, [0])) == "1!0";
  }
}
