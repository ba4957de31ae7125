/** The values the ingestion notebooks handle: JSON documents as Python
    sees them, with truthiness, `dict.get`, and dictionaries that remember
    the order keys were first inserted.  `str()`, `float()` and `int()` on
    arbitrary values are given as functions (`float()`/`int()` return
    `None` where Python raises `ValueError` or `TypeError`). */
module PyValues {
  import opened Common
  import opened Keys

  datatype PyVal =
    | PNone
    | PBool(b: bool)
    | PInt(i: int)
    | PFloat(x: real)
    | PStr(s: string)
    | PList(items: seq<PyVal>)
    | PDict(fields: seq<(string, PyVal)>)

  /** A JSON object: its fields in document order. */
  type Dict = seq<(string, PyVal)>

  /** Python truthiness. */
  predicate Truthy(v: PyVal) {
    match v
    case PNone => false
    case PBool(b) => b
    case PInt(i) => i != 0
    case PFloat(x) => x != 0.0
    case PStr(s) => s != ""
    case PList(items) => items != []
    case PDict(fields) => fields != []
  }

  predicate Has(d: Dict, key: string) {
    exists k :: 0 <= k < |d| && d[k].0 == key
  }

  /** `d.get(key, default)` on the dictionary `json.loads` builds from the
      fields: a repeated key keeps its last value. */
  function Get(d: Dict, key: string, default: PyVal): PyVal
    decreases |d|
  {
    if d == [] then default
    else if d[|d| - 1].0 == key then d[|d| - 1].1
    else Get(d[..|d| - 1], key, default)
  }

  /** `get` finds the value of the last field with the key, and the
      default when there is none. */
  lemma {:induction false} GetFinds(d: Dict, key: string, default: PyVal)
    ensures !Has(d, key) ==> Get(d, key, default) == default
    ensures Has(d, key) ==> exists k :: 0 <= k < |d| && d[k] == (key, Get(d, key, default))
                                        && forall j :: k < j < |d| ==> d[j].0 != key
    decreases |d|
  {
    if d != [] && d[|d| - 1].0 != key {
      var init := d[..|d| - 1];
      GetFinds(init, key, default);
      assert Has(d, key) <==> Has(init, key) by {
        if Has(d, key) {
          var k :| 0 <= k < |d| && d[k].0 == key;
          assert init[k].0 == key;
        }
        if Has(init, key) {
          var k :| 0 <= k < |init| && init[k].0 == key;
          assert d[k].0 == key;
        }
      }
      if Has(d, key) {
        var k :| 0 <= k < |init| && init[k] == (key, Get(d, key, default))
                 && forall j :: k < j < |init| ==> init[j].0 != key;
        assert d[k] == (key, Get(d, key, default));
        forall j | k < j < |d| ensures d[j].0 != key {
          if j < |d| - 1 { assert d[j] == init[j]; }
        }
      }
    } else if d != [] {
      assert d[|d| - 1] == (key, Get(d, key, default));
    }
  }

  /** A loop that appends one result per element and stops at the first
      element that raises: `None` stands for the exception. */
  function Collect<T>(os: seq<Option<T>>): (r: Option<seq<T>>)
    ensures r.Some? ==> |r.value| == |os|
    decreases |os|
  {
    if os == [] then Some([])
    else
      var n := |os| - 1;
      var rest := Collect(os[..n]);
      if rest.Some? && os[n].Some? then Some(rest.value + [os[n].value]) else None
  }

  /** Without an exception, the `k`-th result is the `k`-th element's. */
  lemma {:induction false} CollectAt<T>(os: seq<Option<T>>, k: int)
    requires Collect(os).Some? && 0 <= k < |os|
    ensures os[k] == Some(Collect(os).value[k])
    decreases |os|
  {
    var n := |os| - 1;
    if k < n {
      CollectAt(os[..n], k);
      assert os[..n][k] == os[k];
    }
  }

  /** The loop raises exactly when one of the elements raises. */
  lemma {:induction false} CollectRaises<T>(os: seq<Option<T>>)
    ensures Collect(os).None? <==> exists k :: 0 <= k < |os| && os[k].None?
    decreases |os|
  {
    if os != [] {
      var n := |os| - 1;
      CollectRaises(os[..n]);
      assert forall k :: 0 <= k < n ==> os[..n][k] == os[k];
    }
  }

  /** One more element: its result is appended, or the loop raises. */
  lemma CollectSnoc<T>(os: seq<Option<T>>, i: int)
    requires 0 <= i < |os|
    ensures Collect(os[..i + 1]) ==
      if Collect(os[..i]).Some? && os[i].Some? then Some(Collect(os[..i]).value + [os[i].value]) else None
  {
    assert os[..i + 1][..i] == os[..i];
  }

  /** Once an element raises, the whole loop raises. */
  lemma {:induction false} CollectRaisedStays<T>(os: seq<Option<T>>, i: nat)
    requires i <= |os| && Collect(os[..i]).None?
    ensures Collect(os).None?
    decreases |os| - i
  {
    if i < |os| {
      CollectSnoc(os, i);
      CollectRaisedStays(os, i + 1);
    } else {
      assert os[..i] == os;
    }
  }

  /** `f` applied to each element, in order; `EachAt` gives the elements
      one at a time. */
  function Each<T, U>(s: seq<T>, f: T -> U): (r: seq<U>)
    ensures |r| == |s|
    decreases |s|
  {
    if s == [] then [] else Each(s[..|s| - 1], f) + [f(s[|s| - 1])]
  }

  lemma {:induction false} EachAt<T, U>(s: seq<T>, f: T -> U, k: int)
    requires 0 <= k < |s|
    ensures Each(s, f)[k] == f(s[k])
    decreases |s|
  {
    var n := |s| - 1;
    if k < n {
      EachAt(s[..n], f, k);
      assert s[..n][k] == s[k];
    }
  }

  /** A loop that appends the result of each element that has one and
      skips the others. */
  function Somes<T>(os: seq<Option<T>>): (r: seq<T>)
    ensures |r| <= |os|
    decreases |os|
  {
    if os == [] then []
    else
      var n := |os| - 1;
      Somes(os[..n]) + (if os[n].Some? then [os[n].value] else [])
  }

  /** Every result kept is the result of one of the elements. */
  lemma {:induction false} SomesFrom<T>(os: seq<Option<T>>, k: int)
    requires 0 <= k < |Somes(os)|
    ensures exists j :: 0 <= j < |os| && os[j] == Some(Somes(os)[k])
    decreases |os|
  {
    var n := |os| - 1;
    if k < |Somes(os[..n])| {
      SomesFrom(os[..n], k);
      var j :| 0 <= j < n && os[..n][j] == Some(Somes(os[..n])[k]);
      assert os[j] == os[..n][j];
    }
  }

  /** One more element: its result, if any, is appended. */
  lemma SomesStep<T>(os: seq<Option<T>>, i: int)
    requires 0 <= i < |os|
    ensures Somes(os[..i + 1]) == Somes(os[..i]) + (if os[i].Some? then [os[i].value] else [])
  {
    assert os[..i + 1][..i] == os[..i];
  }

  /** The conversions applied to arbitrary values. */
  datatype Conv = Conv(
    str: PyVal -> string,
    toFloat: PyVal -> Option<real>,
    toInt: PyVal -> Option<int>)

  /** `str(v)`: a string is itself. */
  function Str(conv: Conv, v: PyVal): string {
    if v.PStr? then v.s else conv.str(v)
  }

  /** `sanitize_key(v, allow_spaces)` on an arbitrary value: a falsy value
      gives ''; anything else is sanitized as its `str()`, and a text that
      is empty after the replacements gets the prefix `a` like any other. */
  function SanitizeValue(conv: Conv, v: PyVal, allowSpaces: bool): (r: string)
    ensures !Truthy(v) <==> r == ""
    ensures Truthy(v) && Str(conv, v) != "" ==> r == PySanitizeKey(Str(conv, v), allowSpaces)
    ensures Truthy(v) ==> IsValidKey(r)
  {
    if !Truthy(v) then ""
    else if Str(conv, v) == "" then "a"
    else PySanitizeKey(Str(conv, v), allowSpaces)
  }

  /** A string value without characters beyond U+FFFF is sanitized exactly
      as the server sanitizes it. */
  lemma SanitizeStringValue(conv: Conv, s: string, allowSpaces: bool)
    ensures SanitizeValue(conv, PStr(s), allowSpaces) == PySanitizeKey(s, allowSpaces)
    ensures IsBmp(s) ==> SanitizeValue(conv, PStr(s), allowSpaces) == SanitizeKey(s)
  {
    PySanitizeKeyAgrees(s, allowSpaces);
  }

  /** `float(v) if v is not None else 0`, falling back to 0 on error. */
  function FloatOr0(conv: Conv, v: PyVal): (r: real)
    ensures v.PNone? ==> r == 0.0
    ensures !v.PNone? && conv.toFloat(v).Some? ==> r == conv.toFloat(v).value
  {
    if v.PNone? then 0.0
    else match conv.toFloat(v)
      case None => 0.0
      case Some(x) => x
  }

  /** `int(v) if v is not None else 0`, falling back to 0 on error. */
  function IntOr0(conv: Conv, v: PyVal): (r: int)
    ensures v.PNone? ==> r == 0
    ensures !v.PNone? && conv.toInt(v).Some? ==> r == conv.toInt(v).value
  {
    if v.PNone? then 0
    else match conv.toInt(v)
      case None => 0
      case Some(i) => i
  }

  /** `sep.join(vs)`: `None` when an element is not a string, where Python
      raises `TypeError`. */
  function JoinStrs(vs: seq<PyVal>, sep: string): (r: Option<string>)
    ensures r.Some? <==> forall k :: 0 <= k < |vs| ==> vs[k].PStr?
    decreases |vs|
  {
    if vs == [] then Some("")
    else if !vs[0].PStr? then None
    else if |vs| == 1 then Some(vs[0].s)
    else
      match JoinStrs(vs[1..], sep)
      case None => None
      case Some(rest) => Some(vs[0].s + sep + rest)
  }

  /** `iter(v)`: a list's items, a string's characters, a dict's keys;
      `None` where Python raises `TypeError`. */
  function Iterate(v: PyVal): (r: Option<seq<PyVal>>)
    ensures v.PList? ==> r == Some(v.items)
    ensures r.None? <==> !(v.PList? || v.PStr? || v.PDict?)
  {
    match v
    case PList(items) => Some(items)
    case PStr(s) => Some(seq(|s|, k requires 0 <= k < |s| => PStr([s[k]])))
    case PDict(fields) => Some(seq(|fields|, k requires 0 <= k < |fields| => PStr(fields[k].0)))
    case _ => None
  }

  /** `x in v` for a string `x`: a dict key, a list element or a substring;
      `None` where Python raises `TypeError`. */
  function ContainsText(v: PyVal, x: string): (r: Option<bool>)
    ensures v.PDict? ==> r == Some(Has(v.fields, x))
    ensures r.None? <==> !(v.PList? || v.PStr? || v.PDict?)
  {
    match v
    case PDict(fields) => Some(Has(fields, x))
    case PList(items) => Some(PStr(x) in items)
    case PStr(s) => Some(Contains(s, x))
    case _ => None
  }

  /** `s.replace(old, new)` for single characters. */
  function ReplaceSpaces(s: string): (r: string)
    ensures |r| == |s|
    ensures forall k :: 0 <= k < |s| ==> r[k] == (if s[k] == ' ' then '_' else s[k])
  {
    seq(|s|, k requires 0 <= k < |s| => if s[k] == ' ' then '_' else s[k])
  }

  // ---------------------------------------------------------------------
  // Insertion-ordered dictionaries

  /** The keys of a dictionary, in insertion order. */
  function KeysOf<K, V>(d: seq<(K, V)>): (r: seq<K>)
    ensures |r| == |d|
    ensures forall k :: 0 <= k < |d| ==> r[k] == d[k].0
  {
    seq(|d|, k requires 0 <= k < |d| => d[k].0)
  }

  /** No key occurs twice. */
  predicate DistinctKeys<K(==), V>(d: seq<(K, V)>) {
    forall i, j :: 0 <= i < j < |d| ==> d[i].0 != d[j].0
  }

  /** The dictionary built by `if k not in d: d[k] = v` over `stream`: the
      first pair with each key, in order. */
  function FirstOccurrences<K(==,!new), V>(stream: seq<(K, V)>): (r: seq<(K, V)>)
    ensures DistinctKeys(r)
    ensures forall e :: e in r ==> e in stream
    ensures forall k :: k in KeysOf(stream) <==> k in KeysOf(r)
    decreases |stream|
  {
    if stream == [] then []
    else
      var n := |stream| - 1;
      var d := FirstOccurrences(stream[..n]);
      assert forall k :: k in KeysOf(stream) <==> k in KeysOf(stream[..n]) || k == stream[n].0 by {
        assert KeysOf(stream) == KeysOf(stream[..n]) + [stream[n].0];
      }
      if stream[n].0 in KeysOf(d) then d
      else
        assert KeysOf(d + [stream[n]]) == KeysOf(d) + [stream[n].0];
        d + [stream[n]]
  }

  /** Each entry is the earliest pair of the stream with its key: later
      pairs never overwrite it. */
  lemma {:induction false} FirstOccurrenceWins<K(!new), V>(stream: seq<(K, V)>, i: int)
    requires 0 <= i < |FirstOccurrences(stream)|
    ensures exists p :: 0 <= p < |stream| && stream[p] == FirstOccurrences(stream)[i]
                        && forall q :: 0 <= q < p ==> stream[q].0 != stream[p].0
    decreases |stream|
  {
    var n := |stream| - 1;
    var d := FirstOccurrences(stream[..n]);
    var r := FirstOccurrences(stream);
    assert r == d || r == d + [stream[n]];
    if i < |d| {
      assert r[i] == d[i];
      FirstOccurrenceWins(stream[..n], i);
      var p :| 0 <= p < n && stream[..n][p] == d[i]
                && forall q :: 0 <= q < p ==> stream[..n][q].0 != stream[..n][p].0;
      forall q | 0 <= q < p ensures stream[q].0 != stream[p].0 {
        assert stream[q] == stream[..n][q];
      }
      assert stream[p] == r[i];
    } else {
      assert r == d + [stream[n]] && stream[n].0 !in KeysOf(d);
      forall q | 0 <= q < n ensures stream[q].0 != stream[n].0 {
        assert KeysOf(stream[..n])[q] == stream[q].0;
        assert stream[q].0 in KeysOf(d);
      }
      assert stream[n] == r[i];
    }
  }

  /** `d[k] = v if k not in d`. */
  method InsertIfAbsent<K(==), V>(d: seq<(K, V)>, k: K, v: V) returns (r: seq<(K, V)>)
    ensures k in KeysOf(d) ==> r == d
    ensures k !in KeysOf(d) ==> r == d + [(k, v)]
  {
    r := d;
    var i := 0;
    while i < |d|
      invariant 0 <= i <= |d|
      invariant forall j :: 0 <= j < i ==> d[j].0 != k
    {
      if d[i].0 == k {
        assert k == KeysOf(d)[i];
        return;
      }
      i := i + 1;
    }
    r := d + [(k, v)];
  }

  /** A dictionary entry that counts its key's occurrences and keeps what
      came with the key's first occurrence. */
  datatype Counted<K, P> = Counted(key: K, first: P, count: nat)

  function CountedKeys<K, P>(d: seq<Counted<K, P>>): (r: seq<K>)
    ensures |r| == |d|
    ensures forall k :: 0 <= k < |d| ==> r[k] == d[k].key
  {
    seq(|d|, k requires 0 <= k < |d| => d[k].key)
  }

  /** The position of `k` among the keys of `d`, or `|d|`. */
  function IndexOfKey<K(==), P>(d: seq<Counted<K, P>>, k: K): (j: nat)
    ensures j <= |d|
    ensures forall t :: 0 <= t < j ==> d[t].key != k
    ensures j < |d| ==> d[j].key == k
    decreases |d|
  {
    if d == [] || d[0].key == k then 0 else 1 + IndexOfKey(d[1..], k)
  }

  /** One step of counting: a new key is entered with count 1, a known one
      has its count raised by one. */
  function Bump<K(==), P>(d: seq<Counted<K, P>>, k: K, p: P): (r: seq<Counted<K, P>>)
    ensures k in CountedKeys(d) ==> CountedKeys(r) == CountedKeys(d)
    ensures k !in CountedKeys(d) ==> CountedKeys(r) == CountedKeys(d) + [k]
    ensures |r| == if k in CountedKeys(d) then |d| else |d| + 1
    ensures forall t :: 0 <= t < |d| ==> r[t].key == d[t].key && r[t].first == d[t].first
    ensures forall t :: 0 <= t < |d| ==> r[t].count == d[t].count + (if t == IndexOfKey(d, k) then 1 else 0)
    ensures |r| > |d| ==> r[|d|] == Counted(k, p, 1)
  {
    var j := IndexOfKey(d, k);
    if j < |d| then
      var r := d[j := d[j].(count := d[j].count + 1)];
      assert CountedKeys(r) == CountedKeys(d);
      r
    else
      assert CountedKeys(d + [Counted(k, p, 1)]) == CountedKeys(d) + [k];
      d + [Counted(k, p, 1)]
  }

  /** The dictionary built by counting the keys of `pairs` in order. */
  function TallyOf<K(==), P>(pairs: seq<(K, P)>): seq<Counted<K, P>>
    decreases |pairs|
  {
    if pairs == [] then []
    else
      var n := |pairs| - 1;
      Bump(TallyOf(pairs[..n]), pairs[n].0, pairs[n].1)
  }

  /** One more pair of the stream is entered unless its key is already
      there. */
  lemma FirstOccurrencesStep<K(!new), V>(stream: seq<(K, V)>, i: int)
    requires 0 <= i < |stream|
    ensures FirstOccurrences(stream[..i + 1]) ==
      if stream[i].0 in KeysOf(FirstOccurrences(stream[..i])) then FirstOccurrences(stream[..i])
      else FirstOccurrences(stream[..i]) + [stream[i]]
  {
    assert stream[..i + 1][..i] == stream[..i];
  }

  /** `d[k] = v if k not in d` for each pair of `more` in turn. */
  method InsertAllIfAbsent<K(==,!new), V>(d: seq<(K, V)>, ghost seen: seq<(K, V)>, more: seq<(K, V)>)
    returns (r: seq<(K, V)>)
    requires d == FirstOccurrences(seen)
    ensures r == FirstOccurrences(seen + more)
  {
    r := d;
    var j := 0;
    ghost var all := seen + more;
    assert all[..|seen|] == seen;
    while j < |more|
      invariant 0 <= j <= |more|
      invariant r == FirstOccurrences(all[..|seen| + j])
    {
      ghost var i := |seen| + j;
      assert all[i] == more[j];
      FirstOccurrencesStep(all, i);
      r := InsertIfAbsent(r, more[j].0, more[j].1);
      assert r == FirstOccurrences(all[..i + 1]);
      j := j + 1;
    }
    assert all[..|seen| + j] == all;
  }

  /** The number of times `k` occurs in `keys`. */
  function Occurrences<K(==)>(keys: seq<K>, k: K): nat {
    multiset(keys)[k]
  }

  /** Every key once, in order of first occurrence. */
  lemma {:induction false} TallyKeys<K(!new), P>(pairs: seq<(K, P)>)
    ensures CountedKeys(TallyOf(pairs)) == Dedup(KeysOf(pairs))
    decreases |pairs|
  {
    if pairs != [] {
      var n := |pairs| - 1;
      TallyKeys(pairs[..n]);
      assert KeysOf(pairs)[..n] == KeysOf(pairs[..n]);
    }
  }

  /** Each entry counts the occurrences of its key. */
  lemma {:induction false} TallyCounts<K(!new), P>(pairs: seq<(K, P)>, t: int)
    requires 0 <= t < |TallyOf(pairs)|
    ensures TallyOf(pairs)[t].count == Occurrences(KeysOf(pairs), TallyOf(pairs)[t].key)
    decreases |pairs|
  {
    var n := |pairs| - 1;
    var k := pairs[n].0;
    var d := TallyOf(pairs[..n]);
    var r := TallyOf(pairs);
    var j := IndexOfKey(d, k);
    assert KeysOf(pairs) == KeysOf(pairs[..n]) + [k];
    assert multiset(KeysOf(pairs)) == multiset(KeysOf(pairs[..n])) + multiset{k};
    if t < |d| {
      TallyCounts(pairs[..n], t);
      if t != j {
        assert r[t] == d[t];
        assert d[t].key != k by {
          if j < |d| {
            TallyKeys(pairs[..n]);
            assert CountedKeys(d)[t] == d[t].key && CountedKeys(d)[j] == k;
          }
        }
      }
    } else {
      TallyKeys(pairs[..n]);
      assert k !in KeysOf(pairs[..n]);
    }
  }

  /** Each entry keeps the payload of its key's first occurrence. */
  lemma {:induction false} TallyFirst<K(!new), P>(pairs: seq<(K, P)>, t: int)
    requires 0 <= t < |TallyOf(pairs)|
    ensures exists p :: 0 <= p < |pairs| && pairs[p] == (TallyOf(pairs)[t].key, TallyOf(pairs)[t].first)
                        && forall q :: 0 <= q < p ==> pairs[q].0 != pairs[p].0
    decreases |pairs|
  {
    var n := |pairs| - 1;
    var k := pairs[n].0;
    var d := TallyOf(pairs[..n]);
    var r := TallyOf(pairs);
    assert r == Bump(d, k, pairs[n].1);
    if t < |d| {
      TallyFirst(pairs[..n], t);
      var p :| 0 <= p < n && pairs[..n][p] == (d[t].key, d[t].first)
               && forall q :: 0 <= q < p ==> pairs[..n][q].0 != pairs[..n][p].0;
      forall q | 0 <= q < p ensures pairs[q].0 != pairs[p].0 {
        assert pairs[q] == pairs[..n][q];
      }
      assert pairs[p] == pairs[..n][p] == (r[t].key, r[t].first);
    } else {
      assert r[t] == Counted(k, pairs[n].1, 1);
      TallyKeys(pairs[..n]);
      assert k !in KeysOf(pairs[..n]);
      forall q | 0 <= q < n ensures pairs[q].0 != k {
        assert KeysOf(pairs[..n])[q] == pairs[q].0;
      }
      assert pairs[n] == (r[t].key, r[t].first);
    }
  }

  lemma TallyAllCounts<K(!new), P>(pairs: seq<(K, P)>)
    ensures forall e :: e in TallyOf(pairs) ==> e.count == Occurrences(KeysOf(pairs), e.key)
  {
    var d := TallyOf(pairs);
    forall e | e in d ensures e.count == Occurrences(KeysOf(pairs), e.key) {
      var t :| 0 <= t < |d| && d[t] == e;
      TallyCounts(pairs, t);
    }
  }

  /** `d[k] += 1` for a known key, `d[k] = (p, 1)` for a new one. */
  method BumpInPlace<K(==), P>(d: seq<Counted<K, P>>, k: K, p: P) returns (r: seq<Counted<K, P>>)
    ensures r == Bump(d, k, p)
  {
    var j := 0;
    while j < |d| && d[j].key != k
      invariant 0 <= j <= IndexOfKey(d, k)
    {
      j := j + 1;
    }
    if j < |d| {
      r := d[j := d[j].(count := d[j].count + 1)];
    } else {
      r := d + [Counted(k, p, 1)];
    }
  }

  /** Counting the keys of `pairs` into an insertion-ordered dictionary:
      every key once, in order of first occurrence, with its count and the
      payload of its first occurrence. */
  method Tally<K(==,!new), P>(pairs: seq<(K, P)>) returns (d: seq<Counted<K, P>>)
    ensures d == TallyOf(pairs)
    ensures CountedKeys(d) == Dedup(KeysOf(pairs))
    ensures forall e :: e in d ==> e.count == Occurrences(KeysOf(pairs), e.key)
  {
    d := [];
    var i := 0;
    while i < |pairs|
      invariant 0 <= i <= |pairs|
      invariant d == TallyOf(pairs[..i])
    {
      assert pairs[..i + 1][..i] == pairs[..i];
      d := BumpInPlace(d, pairs[i].0, pairs[i].1);
      i := i + 1;
    }
    assert pairs[..|pairs|] == pairs;
    TallyKeys(pairs);
    TallyAllCounts(pairs);
  }
}
