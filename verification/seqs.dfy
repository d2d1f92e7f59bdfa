/** Sequence helpers shared by the model: the list comprehension
    `[x for x in s if p(x)]` and the subsequence relation it establishes. */
module Seqs {
  import opened Results

  /** `[x for x in s if p(x)]` */
  function Filter<T(==)>(s: seq<T>, p: T -> bool): (r: seq<T>)
    ensures |r| <= |s|
    ensures forall i :: 0 <= i < |r| ==> p(r[i]) && r[i] in s
    ensures forall i :: 0 <= i < |s| && p(s[i]) ==> s[i] in r
    decreases |s|
  {
    if |s| == 0 then []
    else if p(s[0]) then [s[0]] + Filter(s[1..], p)
    else Filter(s[1..], p)
  }

  /** `a` is `s` with some elements left out, the rest kept in order. */
  predicate IsSubseq<T(==)>(a: seq<T>, s: seq<T>)
    decreases |s|
  {
    if |a| == 0 then true
    else if |s| == 0 then false
    else (a[0] == s[0] && IsSubseq(a[1..], s[1..])) || IsSubseq(a, s[1..])
  }

  /** A filter keeps the order of the elements it keeps. */
  lemma {:induction false} FilterIsSubseq<T>(s: seq<T>, p: T -> bool)
    ensures IsSubseq(Filter(s, p), s)
    decreases |s|
  {
    if |s| > 0 {
      FilterIsSubseq(s[1..], p);
      if p(s[0]) {
        assert Filter(s, p)[1..] == Filter(s[1..], p);
      }
    }
  }

  /** Filtering keeps every element that passes, however often it occurs. */
  lemma {:induction false} FilterCount<T>(s: seq<T>, p: T -> bool, x: T)
    requires p(x)
    ensures multiset(Filter(s, p))[x] == multiset(s)[x]
    decreases |s|
  {
    if |s| > 0 {
      FilterCount(s[1..], p, x);
      assert s == [s[0]] + s[1..];
      if p(s[0]) {
        assert Filter(s, p) == [s[0]] + Filter(s[1..], p);
      }
    }
  }

  /** Every element of a subsequence occurs in the sequence. */
  lemma {:induction false} IsSubseqIn<T>(a: seq<T>, s: seq<T>, i: nat)
    requires IsSubseq(a, s) && i < |a|
    ensures a[i] in s
    decreases |s|
  {
    if a[0] == s[0] && IsSubseq(a[1..], s[1..]) {
      if i > 0 {
        IsSubseqIn(a[1..], s[1..], i - 1);
        assert a[1..][i - 1] == a[i];
      }
    } else {
      IsSubseqIn(a, s[1..], i);
    }
  }

  /** Index of the first element of `s` that passes `p`. */
  function FirstMatch<T>(s: seq<T>, p: T -> bool): (r: Option<nat>)
    ensures r.Some? <==> exists i :: 0 <= i < |s| && p(s[i])
    ensures r.Some? ==> r.value < |s| && p(s[r.value]) && forall j :: 0 <= j < r.value ==> !p(s[j])
    decreases |s|
  {
    if |s| == 0 then None
    else if p(s[0]) then Some(0)
    else
      match FirstMatch(s[1..], p)
      case None => None
      case Some(i) =>
        assert forall j :: 1 <= j < i + 1 ==> s[j] == s[1..][j - 1];
        Some(i + 1)
  }

  /** The first element a filter keeps is the first element that passes. */
  lemma {:induction false} FilterHead<T>(s: seq<T>, p: T -> bool)
    ensures |Filter(s, p)| > 0 <==> FirstMatch(s, p).Some?
    ensures |Filter(s, p)| > 0 ==> Filter(s, p)[0] == s[FirstMatch(s, p).value]
    decreases |s|
  {
    if |s| > 0 && !p(s[0]) {
      FilterHead(s[1..], p);
    }
  }

  /** A sequence whose first element is `x` and whose other elements are
      those of `b`, in order, is `x` followed by `b`. */
  lemma ConsOf<T>(a: seq<T>, x: T, b: seq<T>)
    requires |a| == |b| + 1 && a[0] == x
    requires forall i :: 0 < i < |a| ==> a[i] == b[i - 1]
    ensures a == [x] + b
  {
  }

  /** Keys never decrease along the sequence. */
  predicate SortedBy<T>(s: seq<T>, key: T -> int) {
    forall i, j :: 0 <= i < j < |s| ==> key(s[i]) <= key(s[j])
  }

  /** An element whose key is at most every key of a sorted sequence can
      head it. */
  lemma ConsSorted<T>(y: T, rest: seq<T>, key: T -> int)
    requires SortedBy(rest, key)
    requires forall i :: 0 <= i < |rest| ==> key(y) <= key(rest[i])
    ensures SortedBy([y] + rest, key)
  {
    forall i, j | 0 <= i < j < |[y] + rest| ensures key(([y] + rest)[i]) <= key(([y] + rest)[j]) {
      if i > 0 {
        assert ([y] + rest)[i] == rest[i - 1];
      }
      assert ([y] + rest)[j] == rest[j - 1];
    }
  }

  /** Elements drawn from a sorted sequence's tail, or above its head,
      are not below its head. */
  lemma AboveHead<T>(x: T, s: seq<T>, key: T -> int, rest: seq<T>)
    requires SortedBy(s, key) && |s| > 0 && key(s[0]) < key(x)
    requires forall i :: 0 <= i < |rest| ==> rest[i] == x || rest[i] in s[1..]
    ensures forall i :: 0 <= i < |rest| ==> key(s[0]) <= key(rest[i])
  {
    forall i | 0 <= i < |rest| ensures key(s[0]) <= key(rest[i]) {
      if rest[i] != x {
        var j :| 0 <= j < |s[1..]| && s[1..][j] == rest[i];
        assert s[j + 1] == rest[i];
      }
    }
  }

  /** `x` placed before the first element with a key not below its own. */
  function InsertBy<T(==)>(x: T, s: seq<T>, key: T -> int): (r: seq<T>)
    requires SortedBy(s, key)
    ensures SortedBy(r, key)
    ensures multiset(r) == multiset(s) + multiset{x}
    ensures forall i :: 0 <= i < |r| ==> r[i] == x || r[i] in s
    decreases |s|
  {
    if |s| == 0 then [x]
    else if key(x) <= key(s[0]) then
      assert forall i :: 0 <= i < |s| ==> key(s[0]) <= key(s[i]);
      ConsSorted(x, s, key);
      [x] + s
    else
      assert SortedBy(s[1..], key);
      var rest := InsertBy(x, s[1..], key);
      assert s == [s[0]] + s[1..];
      AboveHead(x, s, key, rest);
      ConsSorted(s[0], rest, key);
      [s[0]] + rest
  }

  /** `sorted(s, key=key)`: the same elements, keys in ascending order. */
  function SortBy<T(==)>(s: seq<T>, key: T -> int): (r: seq<T>)
    ensures SortedBy(r, key)
    ensures multiset(r) == multiset(s)
    decreases |s|
  {
    if |s| == 0 then []
    else
      assert s == [s[0]] + s[1..];
      InsertBy(s[0], SortBy(s[1..], key), key)
  }

  /** The error of the first element `f` fails on, computing in order. */
  function FirstErr<T, E>(xs: seq<T>, f: T -> Result<E>): (r: Option<Error>)
    ensures r.None? <==> forall i :: 0 <= i < |xs| ==> f(xs[i]).Ok?
    ensures r.Some? ==>
      exists i :: (0 <= i < |xs| && f(xs[i]) == Err(r.value)
        && forall j :: 0 <= j < i ==> f(xs[j]).Ok?)
    decreases |xs|
  {
    if |xs| == 0 then None
    else if f(xs[0]).Err? then Some(f(xs[0]).error)
    else
      assert forall i :: 1 <= i < |xs| ==> xs[i] == xs[1..][i - 1];
      match FirstErr(xs[1..], f)
      case None => None
      case Some(e) =>
        assert exists i :: (0 <= i < |xs| && f(xs[i]) == Err(e)
          && forall j :: 0 <= j < i ==> f(xs[j]).Ok?) by {
          var i :| (0 <= i < |xs[1..]| && f(xs[1..][i]) == Err(e)
            && forall j :: 0 <= j < i ==> f(xs[1..][j]).Ok?);
          assert xs[i + 1] == xs[1..][i];
          assert forall j :: 1 <= j < i + 1 ==> f(xs[j]).Ok?;
        }
        Some(e)
  }

  /** Every element has a key, and keys never decrease along the sequence. */
  predicate SortedByKey<T>(s: seq<T>, f: T -> Result<int>) {
    forall i, j :: 0 <= i < j < |s| ==> f(s[i]).Ok? && f(s[j]).Ok? && f(s[i]).value <= f(s[j]).value
  }

  /** `xs.sort(key=f)` where computing a key can raise: the first error,
      or the same elements in ascending order of their keys. */
  method SortByChecked<T(==)>(xs: seq<T>, f: T -> Result<int>) returns (r: Result<seq<T>>)
    ensures r.Ok? <==> forall i :: 0 <= i < |xs| ==> f(xs[i]).Ok?
    ensures r.Err? ==>
      exists i :: (0 <= i < |xs| && f(xs[i]) == Err(r.error)
        && forall j :: 0 <= j < i ==> f(xs[j]).Ok?)
    ensures r.Ok? ==> multiset(r.value) == multiset(xs)
    ensures r.Ok? ==> SortedByKey(r.value, f)
  {
    match FirstErr(xs, f)
    case Some(e) =>
      r := Err(e);
    case None =>
      var key := (x: T) => if f(x).Ok? then f(x).value else 0;
      var sorted := SortBy(xs, key);
      forall i | 0 <= i < |sorted| ensures f(sorted[i]).Ok? {
        assert sorted[i] in multiset(xs);
        var j :| 0 <= j < |xs| && xs[j] == sorted[i];
      }
      r := Ok(sorted);
  }


  /** `v` is the last element of `xs` whose key is `k`. */
  predicate LastWithKey<K(==), V(==)>(xs: seq<V>, key: V -> K, k: K, v: V) {
    exists i :: 0 <= i < |xs| && xs[i] == v && key(xs[i]) == k && forall j :: i < j < |xs| ==> key(xs[j]) != k
  }

  /** `{key(x): x for x in xs}`: the keys are those of the elements, and a
      key shared by several elements maps to the last of them. */
  function KeyBy<K(==,!new), V(==)>(xs: seq<V>, key: V -> K): (r: map<K, V>)
    ensures forall k :: k in r <==> exists i :: 0 <= i < |xs| && key(xs[i]) == k
    ensures forall k :: k in r ==> LastWithKey(xs, key, k, r[k])
    decreases |xs|
  {
    if |xs| == 0 then map[]
    else
      var n := |xs| - 1;
      var init := xs[..n];
      var m := KeyBy(init, key);
      assert forall i :: 0 <= i < n ==> init[i] == xs[i];
      var r := m[key(xs[n]) := xs[n]];
      forall k ensures k in r <==> exists i :: 0 <= i < |xs| && key(xs[i]) == k {
        if k in m {
          var i :| 0 <= i < |init| && key(init[i]) == k;
          assert key(xs[i]) == k;
        }
      }
      forall k | k in r ensures LastWithKey(xs, key, k, r[k]) {
        if k == key(xs[n]) {
          assert xs[n] == r[k];
        } else {
          var i :| 0 <= i < |init| && init[i] == m[k] && key(init[i]) == k && forall j :: i < j < |init| ==> key(init[j]) != k;
          assert xs[i] == r[k];
          assert forall j :: i < j < |xs| ==> key(xs[j]) != k;
        }
      }
      r
  }
}
