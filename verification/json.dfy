/** Raw JSON values as `json.load` produces them, and Python dicts as
    insertion-ordered association lists. */
module Json {
  import opened Results
  import Strs

  /** A decoded JSON value. Numbers are integers only. */
  datatype Json =
    | JNull
    | JBool(b: bool)
    | JInt(i: int)
    | JStr(s: string)
    | JArr(items: seq<Json>)
    | JObj(fields: seq<(string, Json)>)

  /** A Python dict: entries in insertion order. */
  type Dict<V> = seq<(string, V)>

  function Keys<V>(d: Dict<V>): (ks: seq<string>)
    ensures |ks| == |d|
    ensures forall i :: 0 <= i < |d| ==> ks[i] == d[i].0
  {
    seq(|d|, i requires 0 <= i < |d| => d[i].0)
  }

  /** `k in d` */
  predicate HasKey<V>(d: Dict<V>, k: string) {
    k in Keys(d)
  }

  predicate Distinct(ks: seq<string>) {
    forall i, j :: 0 <= i < j < |ks| ==> ks[i] != ks[j]
  }

  /** A well-formed dict: no key occurs twice. */
  predicate DistinctKeys<V>(d: Dict<V>) {
    Distinct(Keys(d))
  }

  /** `d.get(k)` (the first entry, which is the only one when keys are distinct) */
  function Get<V>(d: Dict<V>, k: string): (r: Option<V>)
    ensures r.Some? <==> HasKey(d, k)
    decreases |d|
  {
    if |d| == 0 then None
    else if d[0].0 == k then Some(d[0].1)
    else
      assert forall i :: 0 < i < |d| ==> Keys(d)[i] == Keys(d[1..])[i - 1];
      assert Keys(d) == [d[0].0] + Keys(d[1..]);
      Get(d[1..], k)
  }

  /** Every entry of a well-formed dict is what `Get` finds under its key. */
  lemma {:induction false} GetEntry<V>(d: Dict<V>, i: nat)
    requires DistinctKeys(d)
    requires i < |d|
    ensures Get(d, d[i].0) == Some(d[i].1)
    decreases i
  {
    if i > 0 {
      assert d[0].0 != d[i].0 by { assert Keys(d)[0] != Keys(d)[i]; }
      assert Keys(d[1..]) == Keys(d)[1..];
      GetEntry(d[1..], i - 1);
    }
  }

  /** An entry whose key no earlier entry has is what `Get` finds. */
  lemma {:induction false} GetFirst<V>(d: Dict<V>, i: nat)
    requires i < |d|
    requires forall j :: 0 <= j < i ==> d[j].0 != d[i].0
    ensures Get(d, d[i].0) == Some(d[i].1)
    decreases i
  {
    if i > 0 {
      assert d[1..][i - 1] == d[i];
      GetFirst(d[1..], i - 1);
    }
  }

  /** `Get` looks at the first entry, then the rest. */
  lemma GetCons<V>(d: Dict<V>, k: string)
    requires |d| > 0
    ensures Get(d, k) == if d[0].0 == k then Some(d[0].1) else Get(d[1..], k)
  {
  }

  /** The keys of a two-entry dict literal. */
  lemma DictOf2Keys<V>(k1: string, v1: V, k2: string, v2: V)
    ensures Keys([(k1, v1), (k2, v2)]) == [k1, k2]
  {
    var ks := Keys([(k1, v1), (k2, v2)]);
    assert ks[0] == k1 && ks[1] == k2;
  }

  /** A three-entry dict literal with distinct keys. */
  lemma DictOf3<V>(k1: string, v1: V, k2: string, v2: V, k3: string, v3: V)
    requires k1 != k2 && k1 != k3 && k2 != k3
    ensures Keys([(k1, v1), (k2, v2), (k3, v3)]) == [k1, k2, k3]
    ensures DistinctKeys([(k1, v1), (k2, v2), (k3, v3)])
    ensures Get([(k1, v1), (k2, v2), (k3, v3)], k1) == Some(v1)
    ensures Get([(k1, v1), (k2, v2), (k3, v3)], k2) == Some(v2)
    ensures Get([(k1, v1), (k2, v2), (k3, v3)], k3) == Some(v3)
  {
    var d := [(k1, v1), (k2, v2), (k3, v3)];
    var ks := Keys(d);
    assert ks[0] == k1 && ks[1] == k2 && ks[2] == k3;
    assert ks == [k1, k2, k3];
    var d2 := [(k2, v2), (k3, v3)];
    var d3 := [(k3, v3)];
    assert d[1..] == d2 && d2[1..] == d3;
    GetCons(d, k2);
    GetCons(d, k3);
    GetCons(d2, k3);
    GetCons(d3, k3);
  }

  /** A four-entry dict literal with distinct keys. */
  lemma DictOf4<V>(k1: string, v1: V, k2: string, v2: V, k3: string, v3: V, k4: string, v4: V)
    requires k1 != k2 && k1 != k3 && k1 != k4 && k2 != k3 && k2 != k4 && k3 != k4
    ensures Keys([(k1, v1), (k2, v2), (k3, v3), (k4, v4)]) == [k1, k2, k3, k4]
    ensures DistinctKeys([(k1, v1), (k2, v2), (k3, v3), (k4, v4)])
    ensures Get([(k1, v1), (k2, v2), (k3, v3), (k4, v4)], k1) == Some(v1)
    ensures Get([(k1, v1), (k2, v2), (k3, v3), (k4, v4)], k2) == Some(v2)
    ensures Get([(k1, v1), (k2, v2), (k3, v3), (k4, v4)], k3) == Some(v3)
    ensures Get([(k1, v1), (k2, v2), (k3, v3), (k4, v4)], k4) == Some(v4)
  {
    var d := [(k1, v1), (k2, v2), (k3, v3), (k4, v4)];
    var ks := Keys(d);
    assert ks[0] == k1 && ks[1] == k2 && ks[2] == k3 && ks[3] == k4;
    assert ks == [k1, k2, k3, k4];
    var d2 := [(k2, v2), (k3, v3), (k4, v4)];
    var d3 := [(k3, v3), (k4, v4)];
    var d4 := [(k4, v4)];
    assert d[1..] == d2 && d2[1..] == d3 && d3[1..] == d4;
    GetCons(d, k3);
    GetCons(d2, k3);
    GetCons(d3, k3);
    GetCons(d, k4);
    GetCons(d2, k4);
    GetCons(d3, k4);
    GetCons(d4, k4);
  }

  /** The keys of two dicts laid end to end. */
  lemma KeysAppend<V>(a: Dict<V>, b: Dict<V>)
    ensures Keys(a + b) == Keys(a) + Keys(b)
  {
  }

  /** Looking up in two dicts laid end to end finds the first one's entry
      when it has the key, and the second one's otherwise. */
  lemma {:induction false} GetAppend<V>(a: Dict<V>, b: Dict<V>, k: string)
    ensures Get(a + b, k) == if HasKey(a, k) then Get(a, k) else Get(b, k)
    decreases |a|
  {
    if |a| > 0 {
      assert (a + b)[1..] == a[1..] + b;
      GetAppend(a[1..], b, k);
      assert Keys(a) == [a[0].0] + Keys(a[1..]);
      assert (a + b)[0] == a[0];
    } else {
      assert a + b == b;
    }
  }

  /** `d[k] = v`: an existing key keeps its position, a new key is appended. */
  function Set<V>(d: Dict<V>, k: string, v: V): (r: Dict<V>)
    ensures HasKey(d, k) ==> Keys(r) == Keys(d)
    ensures !HasKey(d, k) ==> Keys(r) == Keys(d) + [k]
    decreases |d|
  {
    if |d| == 0 then [(k, v)]
    else
      KeysCons(d[0], d[1..]);
      assert [d[0]] + d[1..] == d;
      if d[0].0 == k then
        KeysCons((k, v), d[1..]);
        [(k, v)] + d[1..]
      else
        var rest := Set(d[1..], k, v);
        KeysCons(d[0], rest);
        assert HasKey(d, k) <==> HasKey(d[1..], k);
        Strs.AppendAssoc([d[0].0], Keys(d[1..]), [k]);
        [d[0]] + rest
  }

  /** The keys of a dict with an entry put first. */
  lemma KeysCons<V>(e: (string, V), d: Dict<V>)
    ensures Keys([e] + d) == [e.0] + Keys(d)
  {
  }

  /** After `d[k] = v`, `k` maps to `v` and every other key is untouched. */
  lemma {:induction false} SetGet<V>(d: Dict<V>, k: string, v: V, k': string)
    ensures Get(Set(d, k, v), k') == if k' == k then Some(v) else Get(d, k')
    decreases |d|
  {
    if |d| > 0 && d[0].0 != k {
      SetGet(d[1..], k, v, k');
      assert Set(d, k, v)[1..] == Set(d[1..], k, v);
    }
  }

  /** Setting a new key appends its entry. */
  lemma {:induction false} SetNew<V>(d: Dict<V>, k: string, v: V)
    requires !HasKey(d, k)
    ensures Set(d, k, v) == d + [(k, v)]
    decreases |d|
  {
    if |d| > 0 {
      assert Keys(d) == [d[0].0] + Keys(d[1..]);
      SetNew(d[1..], k, v);
      assert [d[0]] + (d[1..] + [(k, v)]) == d + [(k, v)];
    }
  }

  lemma SetKeepsDistinct<V>(d: Dict<V>, k: string, v: V)
    requires DistinctKeys(d)
    ensures DistinctKeys(Set(d, k, v))
  {
  }

  /** `d.pop(k, None)` applied to every entry with key `k`. */
  function Remove<V>(d: Dict<V>, k: string): (r: Dict<V>)
    ensures !HasKey(r, k)
    ensures forall k' :: k' != k ==> Get(r, k') == Get(d, k')
    ensures |r| <= |d|
    decreases |d|
  {
    if |d| == 0 then []
    else if d[0].0 == k then Remove(d[1..], k)
    else
      var rest := Remove(d[1..], k);
      assert Keys([d[0]] + rest) == [d[0].0] + Keys(rest);
      [d[0]] + rest
  }

  /** `d.update(e)`: the entries of `e` are set in order. */
  function Update<V>(d: Dict<V>, e: Dict<V>): Dict<V>
    decreases |e|
  {
    if |e| == 0 then d else Update(Set(d, e[0].0, e[0].1), e[1..])
  }

  /** After `d.update(e)` a key of `e` maps to its value in `e`; every other
      key keeps its value in `d`. */
  lemma {:induction false} UpdateGet<V>(d: Dict<V>, e: Dict<V>, k: string)
    requires DistinctKeys(e)
    ensures Get(Update(d, e), k) == if HasKey(e, k) then Get(e, k) else Get(d, k)
    decreases |e|
  {
    if |e| > 0 {
      var tail := e[1..];
      var s := Set(d, e[0].0, e[0].1);
      assert Keys(tail) == Keys(e)[1..];
      assert Keys(e) == [e[0].0] + Keys(tail);
      assert DistinctKeys(tail);
      UpdateGet(s, tail, k);
      SetGet(d, e[0].0, e[0].1, k);
      assert HasKey(e, k) <==> k == e[0].0 || HasKey(tail, k);
      if HasKey(tail, k) {
        var j :| 0 <= j < |Keys(tail)| && Keys(tail)[j] == k;
        assert Keys(e)[j + 1] == k;
        assert k != e[0].0;
      }
    }
  }

  /** After `d.update(e)` the keys are those of `d` and those of `e`. */
  lemma {:induction false} UpdateHasKey<V>(d: Dict<V>, e: Dict<V>, k: string)
    ensures HasKey(Update(d, e), k) <==> HasKey(d, k) || HasKey(e, k)
    decreases |e|
  {
    if |e| > 0 {
      assert Keys(e) == [e[0].0] + Keys(e[1..]);
      UpdateHasKey(Set(d, e[0].0, e[0].1), e[1..], k);
      var s := Set(d, e[0].0, e[0].1);
      assert HasKey(s, k) <==> HasKey(d, k) || k == e[0].0 by {
        assert Get(s, k).Some? <==> HasKey(s, k);
        assert Get(d, k).Some? <==> HasKey(d, k);
      }
    }
  }

  /** A dict literal built from distinct keys. */
  function FromPairs<V>(ps: seq<(string, V)>): Dict<V> {
    Update([], ps)
  }

  /** Python truthiness of a JSON value. */
  predicate Truthy(j: Json) {
    match j
    case JNull => false
    case JBool(b) => b
    case JInt(i) => i != 0
    case JStr(s) => s != ""
    case JArr(items) => |items| > 0
    case JObj(fields) => |fields| > 0
  }

  /** `str(j)` for scalar values and for the empty list and dict. */
  function PyStr(j: Json): (r: Result<string>)
    ensures r.Ok? <==> !(j.JArr? || j.JObj?) || !Truthy(j)
    ensures j.JStr? ==> r == Ok(j.s)
  {
    match j
    case JNull => Ok("None")
    case JBool(b) => Ok(if b then "True" else "False")
    case JInt(i) => Ok(Strs.IntToString(i))
    case JStr(s) => Ok(s)
    case JArr(items) => if |items| == 0 then Ok("[]") else Err(NotModelled("str() of a non-empty list"))
    case JObj(fields) => if |fields| == 0 then Ok("{}") else Err(NotModelled("str() of a non-empty dict"))
  }

  /** The items `for x in v` visits: a list's items, a dict's keys, a
      string's characters; other values are not iterable. */
  function PyIter(v: Json): (r: Result<seq<Json>>)
    ensures r.Ok? <==> v.JArr? || v.JObj? || v.JStr?
    ensures v.JArr? ==> r == Ok(v.items)
    ensures r.Ok? && v.JObj? ==> |r.value| == |v.fields| && forall i :: 0 <= i < |v.fields| ==> r.value[i] == JStr(v.fields[i].0)
    ensures r.Ok? && v.JStr? ==> |r.value| == |v.s| && forall i :: 0 <= i < |v.s| ==> r.value[i] == JStr([v.s[i]])
  {
    match v
    case JArr(items) => Ok(items)
    case JObj(fields) => Ok(seq(|fields|, i requires 0 <= i < |fields| => JStr(fields[i].0)))
    case JStr(s) => Ok(seq(|s|, i requires 0 <= i < |s| => JStr([s[i]])))
    case _ => Err(TypeError("object is not iterable"))
  }

  /** `len(v)`: the number of a list's items, a dict's keys or a string's
      characters; other values have no length. */
  function PyLen(v: Json): (r: Result<nat>)
    ensures r.Ok? <==> v.JArr? || v.JObj? || v.JStr?
    ensures r.Ok? ==> PyIter(v).Ok? && r.value == |PyIter(v).value|
  {
    match v
    case JArr(items) => Ok(|items|)
    case JObj(fields) => Ok(|fields|)
    case JStr(s) => Ok(|s|)
    case _ => Err(TypeError("object has no len()"))
  }

  /** `v[k]`: a missing key raises `KeyError`, a value that is not a dict
      raises `TypeError`. */
  function Subscript(v: Json, k: string): (r: Result<Json>)
    ensures r.Ok? <==> v.JObj? && HasKey(v.fields, k)
    ensures r.Ok? ==> Some(r.value) == Get(v.fields, k)
    ensures v.JObj? && !HasKey(v.fields, k) ==> r == Err(KeyError(k))
  {
    if !v.JObj? then Err(TypeError("object is not subscriptable"))
    else match Get(v.fields, k)
      case Some(x) => Ok(x)
      case None => Err(KeyError(k))
  }

  /** `v[k]` where the value must be a string, as for a URL to be joined. */
  function SubscriptStr(v: Json, k: string): (r: Result<string>)
    ensures r.Ok? <==> Subscript(v, k).Ok? && Subscript(v, k).value.JStr?
    ensures r.Ok? ==> Subscript(v, k) == Ok(JStr(r.value))
    ensures Subscript(v, k).Err? ==> r == Err(Subscript(v, k).error)
  {
    var x :- Subscript(v, k);
    if x.JStr? then Ok(x.s) else Err(TypeError("a value that is not a string"))
  }

  /** `v[i]` for a non-negative index: a list's item or a string's
      character; a dict has no integer keys. */
  function Index(v: Json, i: nat): (r: Result<Json>)
    ensures v.JArr? ==> (r.Ok? <==> i < |v.items|)
    ensures v.JArr? && i < |v.items| ==> r == Ok(v.items[i])
    ensures v.JArr? && i >= |v.items| ==> r == Err(IndexError)
    ensures v.JStr? && i < |v.s| ==> r == Ok(JStr([v.s[i]]))
    ensures r.Ok? ==> v.JArr? || v.JStr?
  {
    match v
    case JArr(items) => if i < |items| then Ok(items[i]) else Err(IndexError)
    case JStr(s) => if i < |s| then Ok(JStr([s[i]])) else Err(IndexError)
    case JObj(_) => Err(KeyError(Strs.NatToString(i)))
    case _ => Err(TypeError("object is not subscriptable"))
  }

  /** `[e[key] for e in entries]`: each entry's value under the key, in
      order; the first entry without it raises. */
  function Pluck(entries: seq<Json>, key: string): (r: Result<seq<Json>>)
    ensures r.Ok? <==> forall i :: 0 <= i < |entries| ==> Subscript(entries[i], key).Ok?
    ensures r.Ok? ==> |r.value| == |entries| && forall i :: 0 <= i < |entries| ==> Subscript(entries[i], key) == Ok(r.value[i])
    ensures r.Err? ==>
      exists i :: (0 <= i < |entries| && Subscript(entries[i], key) == Err(r.error)
        && forall j :: 0 <= j < i ==> Subscript(entries[j], key).Ok?)
    decreases |entries|
  {
    if |entries| == 0 then Ok([])
    else
      var first := Subscript(entries[0], key);
      assert forall i :: 1 <= i < |entries| ==> entries[i] == entries[1..][i - 1];
      if first.Err? then Err(first.error)
      else
        match Pluck(entries[1..], key)
        case Err(e) =>
          assert exists i :: (0 <= i < |entries| && Subscript(entries[i], key) == Err(e)
            && forall j :: 0 <= j < i ==> Subscript(entries[j], key).Ok?) by {
            var i :| (0 <= i < |entries[1..]| && Subscript(entries[1..][i], key) == Err(e)
              && forall j :: 0 <= j < i ==> Subscript(entries[1..][j], key).Ok?);
            assert entries[i + 1] == entries[1..][i];
            assert forall j :: 1 <= j < i + 1 ==> Subscript(entries[j], key).Ok?;
          }
          Err(e)
        case Ok(rest) => Ok([first.value] + rest)
  }

  /** A two-entry dict literal. */
  lemma GetTwo<V>(k1: string, v1: V, k2: string, v2: V, k: string)
    ensures Get([(k1, v1), (k2, v2)], k) == if k == k1 then Some(v1) else if k == k2 then Some(v2) else None
  {
    var d := [(k1, v1), (k2, v2)];
    assert d[1..] == [(k2, v2)];
    assert d[1..][1..] == [];
  }

  /** Python can hash a value: lists and dicts cannot be set members or
      dict keys. */
  predicate Hashable(v: Json) {
    !v.JArr? && !v.JObj?
  }

  /** An entry whose value under the key can go into a set or be a dict
      key. */
  predicate Collectable(entry: Json, key: string) {
    Subscript(entry, key).Ok? && Hashable(Subscript(entry, key).value)
  }

  /** Entry `i` is the first one not collectable, because its value under
      the key is a list or a dict. */
  predicate FirstUnhashable(entries: seq<Json>, key: string, i: int) {
    && 0 <= i < |entries|
    && Subscript(entries[i], key).Ok? && !Hashable(Subscript(entries[i], key).value)
    && forall j :: 0 <= j < i ==> Collectable(entries[j], key)
  }

  /** What a comprehension over `e[key]` raises at an entry that is not
      collectable: the lookup's error, else `unhashable type`. */
  function CollectError(entry: Json, key: string): Error {
    if Subscript(entry, key).Err? then Subscript(entry, key).error else TypeError("unhashable type")
  }

  /** `{e[key] for e in entries}`: each value is looked up and hashed in
      turn, so the first entry without the key or with an unhashable value
      raises. */
  function Collect(entries: seq<Json>, key: string): (r: Result<set<Json>>)
    ensures r.Ok? <==> forall i :: 0 <= i < |entries| ==> Collectable(entries[i], key)
    ensures r.Ok? ==> forall x :: x in r.value <==> exists i :: 0 <= i < |entries| && Subscript(entries[i], key) == Ok(x)
    ensures r.Err? ==>
      exists i :: (0 <= i < |entries| && !Collectable(entries[i], key) && r.error == CollectError(entries[i], key)
        && forall j :: 0 <= j < i ==> Collectable(entries[j], key))
    ensures forall i :: FirstUnhashable(entries, key, i) ==> r == Err(TypeError("unhashable type"))
    decreases |entries|
  {
    if |entries| == 0 then Ok({})
    else
      assert forall i :: 1 <= i < |entries| ==> entries[i] == entries[1..][i - 1];
      if !Collectable(entries[0], key) then Err(CollectError(entries[0], key))
      else
        match Collect(entries[1..], key)
        case Err(e) =>
          CollectErrShift(entries, key, e);
          Err(e)
        case Ok(rest) =>
          CollectOkShift(entries, key, rest);
          Ok({Subscript(entries[0], key).value} + rest)
  }

  /** The first failing entry of the tail is the first of the whole when
      the head is collectable. */
  lemma CollectErrShift(entries: seq<Json>, key: string, e: Error)
    requires |entries| > 0 && Collectable(entries[0], key)
    requires exists i :: (0 <= i < |entries[1..]| && !Collectable(entries[1..][i], key) && e == CollectError(entries[1..][i], key)
      && forall j :: 0 <= j < i ==> Collectable(entries[1..][j], key))
    ensures exists i :: (0 <= i < |entries| && !Collectable(entries[i], key) && e == CollectError(entries[i], key)
      && forall j :: 0 <= j < i ==> Collectable(entries[j], key))
  {
    var i :| (0 <= i < |entries[1..]| && !Collectable(entries[1..][i], key) && e == CollectError(entries[1..][i], key)
      && forall j :: 0 <= j < i ==> Collectable(entries[1..][j], key));
    assert entries[i + 1] == entries[1..][i];
    assert forall j :: 1 <= j < i + 1 ==> entries[j] == entries[1..][j - 1];
  }

  /** Collecting the tail and adding the head's value collects the whole. */
  lemma CollectOkShift(entries: seq<Json>, key: string, rest: set<Json>)
    requires |entries| > 0 && Collectable(entries[0], key)
    requires forall i :: 0 <= i < |entries[1..]| ==> Collectable(entries[1..][i], key)
    requires forall x :: x in rest <==> exists i :: 0 <= i < |entries[1..]| && Subscript(entries[1..][i], key) == Ok(x)
    ensures forall i :: 0 <= i < |entries| ==> Collectable(entries[i], key)
    ensures forall x :: x in {Subscript(entries[0], key).value} + rest <==>
      exists i :: 0 <= i < |entries| && Subscript(entries[i], key) == Ok(x)
  {
    assert forall i :: 1 <= i < |entries| ==> entries[i] == entries[1..][i - 1];
    forall x | exists i :: 0 <= i < |entries| && Subscript(entries[i], key) == Ok(x)
      ensures x in {Subscript(entries[0], key).value} + rest
    {
      var i :| 0 <= i < |entries| && Subscript(entries[i], key) == Ok(x);
      if i > 0 {
        assert entries[1..][i - 1] == entries[i];
      }
    }
    forall x | x in rest
      ensures exists i :: 0 <= i < |entries| && Subscript(entries[i], key) == Ok(x)
    {
      var i :| 0 <= i < |entries[1..]| && Subscript(entries[1..][i], key) == Ok(x);
      assert entries[i + 1] == entries[1..][i];
    }
  }

  /** `required - {names}`: the required names not among the values. */
  function Missing(required: set<string>, present: set<Json>): (r: set<string>)
    ensures forall t :: t in r <==> t in required && JStr(t) !in present
  {
    set t | t in required && JStr(t) !in present
  }

  /** `d = dict(defaults); d.update(overrides)`: a key of the overrides
      maps to its value there, every other key to its default. */
  function Overridden<V>(defaults: Dict<V>, overrides: Dict<V>): (r: Dict<V>)
    requires DistinctKeys(overrides)
    ensures forall k :: Get(r, k) == if HasKey(overrides, k) then Get(overrides, k) else Get(defaults, k)
    ensures forall k :: HasKey(r, k) <==> HasKey(defaults, k) || HasKey(overrides, k)
  {
    forall k
      ensures Get(Update(defaults, overrides), k) == if HasKey(overrides, k) then Get(overrides, k) else Get(defaults, k)
      ensures HasKey(Update(defaults, overrides), k) <==> HasKey(defaults, k) || HasKey(overrides, k)
    {
      UpdateGet(defaults, overrides, k);
      UpdateHasKey(defaults, overrides, k);
    }
    Update(defaults, overrides)
  }
}
