/** Shared vocabulary of the model: optional values, the character classes
    the source's regular expressions use, JavaScript/Python whitespace,
    substring search, decimal rendering, and the stable sort plus LIMIT that
    every database query of the model is built from. */
module Common {

  datatype Option<+T> = None | Some(value: T)

  // ---------------------------------------------------------------------
  // Characters.  A JavaScript string is a sequence of UTF-16 code units and
  // a Python string a sequence of code points; both are `seq<char>` here.

  predicate IsAsciiUpper(c: char) { 'A' <= c <= 'Z' }
  predicate IsAsciiLower(c: char) { 'a' <= c <= 'z' }
  predicate IsAsciiLetter(c: char) { IsAsciiUpper(c) || IsAsciiLower(c) }
  predicate IsDigit(c: char) { '0' <= c <= '9' }

  /** The regular-expression class `\w`. */
  predicate IsWordChar(c: char) { IsAsciiLetter(c) || IsDigit(c) || c == '_' }

  /** Lower-casing of one character (ASCII letters only). */
  function LowerChar(c: char): (r: char)
    ensures !IsAsciiUpper(r)
    ensures IsAsciiUpper(c) ==> IsAsciiLower(r)
    ensures !IsAsciiUpper(c) ==> r == c
  {
    if IsAsciiUpper(c) then (c as int + 32) as char else c
  }

  /** `toLowerCase()` / AQL `LOWER`, restricted to ASCII letters. */
  function Lower(s: string): (r: string)
    ensures |r| == |s|
    ensures forall i :: 0 <= i < |s| ==> r[i] == LowerChar(s[i])
  {
    seq(|s|, i requires 0 <= i < |s| => LowerChar(s[i]))
  }

  /** JavaScript's `\s` and the characters `String.prototype.trim` removes. */
  predicate IsJsSpace(c: char) {
    c == ' ' || c == '\t' || c == '\n' || c == '\r' || c == '\U{B}' || c == '\U{C}'
    || c == '\U{A0}' || c == '\U{1680}' || ('\U{2000}' <= c <= '\U{200A}')
    || c == '\U{2028}' || c == '\U{2029}' || c == '\U{202F}' || c == '\U{205F}'
    || c == '\U{3000}' || c == '\U{FEFF}'
  }

  /** The characters Python's `str.strip()` removes (`str.isspace`). */
  predicate IsPySpace(c: char) {
    c == ' ' || ('\t' <= c <= '\r') || ('\U{1C}' <= c <= '\U{1F}') || c == '\U{85}'
    || c == '\U{A0}' || c == '\U{1680}' || ('\U{2000}' <= c <= '\U{200A}')
    || c == '\U{2028}' || c == '\U{2029}' || c == '\U{202F}' || c == '\U{205F}'
    || c == '\U{3000}'
  }

  // ---------------------------------------------------------------------
  // Trimming

  function TrimStartBy(s: string, isSpace: char -> bool): (r: string)
    decreases |s|
  {
    if |s| > 0 && isSpace(s[0]) then TrimStartBy(s[1..], isSpace) else s
  }

  function TrimEndBy(s: string, isSpace: char -> bool): (r: string)
    decreases |s|
  {
    if |s| > 0 && isSpace(s[|s| - 1]) then TrimEndBy(s[..|s| - 1], isSpace) else s
  }

  function TrimBy(s: string, isSpace: char -> bool): string {
    TrimEndBy(TrimStartBy(s, isSpace), isSpace)
  }

  /** JavaScript `s.trim()`. */
  function Trim(s: string): string { TrimBy(s, IsJsSpace) }

  /** Python `s.strip()`. */
  function Strip(s: string): string { TrimBy(s, IsPySpace) }

  /** Trimming removes only spaces from the two ends: the result is a
      contiguous slice of the input that neither starts nor ends with a space. */
  lemma {:induction false} TrimStartSlice(s: string, isSpace: char -> bool)
    ensures var r := TrimStartBy(s, isSpace);
      (exists k :: 0 <= k <= |s| && r == s[k..] && (forall i :: 0 <= i < k ==> isSpace(s[i])))
      && (r != [] ==> !isSpace(r[0]))
    decreases |s|
  {
    if |s| > 0 && isSpace(s[0]) {
      TrimStartSlice(s[1..], isSpace);
      var k :| 0 <= k <= |s[1..]| && TrimStartBy(s[1..], isSpace) == s[1..][k..]
        && (forall i :: 0 <= i < k ==> isSpace(s[1..][i]));
      assert TrimStartBy(s, isSpace) == s[k + 1..];
      assert forall i :: 0 <= i < k + 1 ==> isSpace(s[i]) by {
        forall i | 0 <= i < k + 1 ensures isSpace(s[i]) {
          if i > 0 { assert s[i] == s[1..][i - 1]; }
        }
      }
    } else {
      assert TrimStartBy(s, isSpace) == s[0..];
    }
  }

  lemma {:induction false} TrimEndSlice(s: string, isSpace: char -> bool)
    ensures var r := TrimEndBy(s, isSpace);
      (exists k :: 0 <= k <= |s| && r == s[..k] && (forall i :: k <= i < |s| ==> isSpace(s[i])))
      && (r != [] ==> !isSpace(r[|r| - 1]))
    decreases |s|
  {
    if |s| > 0 && isSpace(s[|s| - 1]) {
      var t := s[..|s| - 1];
      TrimEndSlice(t, isSpace);
      var k :| 0 <= k <= |t| && TrimEndBy(t, isSpace) == t[..k]
        && (forall i :: k <= i < |t| ==> isSpace(t[i]));
      assert TrimEndBy(s, isSpace) == s[..k];
      assert forall i :: k <= i < |s| ==> isSpace(s[i]) by {
        forall i | k <= i < |s| ensures isSpace(s[i]) {
          if i < |s| - 1 { assert s[i] == t[i]; }
        }
      }
    } else {
      assert TrimEndBy(s, isSpace) == s[..|s|];
    }
  }

  lemma {:induction false} TrimEndEmpty(s: string, isSpace: char -> bool)
    requires TrimEndBy(s, isSpace) == ""
    ensures forall i :: 0 <= i < |s| ==> isSpace(s[i])
    decreases |s|
  {
    if |s| > 0 {
      var t := s[..|s| - 1];
      TrimEndEmpty(t, isSpace);
      assert forall i :: 0 <= i < |t| ==> s[i] == t[i];
    }
  }

  /** A string trims to "" exactly when every character of it is a space. */
  lemma {:induction false} TrimEmptyIffAllSpace(s: string, isSpace: char -> bool)
    ensures TrimBy(s, isSpace) == "" <==> forall i :: 0 <= i < |s| ==> isSpace(s[i])
    decreases |s|
  {
    if |s| > 0 && isSpace(s[0]) {
      TrimEmptyIffAllSpace(s[1..], isSpace);
      assert forall i :: 1 <= i < |s| ==> s[i] == s[1..][i - 1];
    } else if TrimBy(s, isSpace) == "" {
      TrimEndEmpty(s, isSpace);
    }
  }

  /** Trimming never puts a character into the result that was not in the input. */
  lemma TrimChars(s: string, isSpace: char -> bool)
    ensures var r := TrimBy(s, isSpace);
      forall c :: c in r ==> c in s
  {
    TrimStartChars(s, isSpace);
    TrimEndChars(TrimStartBy(s, isSpace), isSpace);
  }

  lemma {:induction false} TrimStartChars(s: string, isSpace: char -> bool)
    ensures forall c :: c in TrimStartBy(s, isSpace) ==> c in s
    decreases |s|
  {
    if |s| > 0 && isSpace(s[0]) {
      TrimStartChars(s[1..], isSpace);
      assert forall c :: c in s[1..] ==> c in s;
    }
  }

  lemma {:induction false} TrimEndChars(s: string, isSpace: char -> bool)
    ensures forall c :: c in TrimEndBy(s, isSpace) ==> c in s
    decreases |s|
  {
    if |s| > 0 && isSpace(s[|s| - 1]) {
      TrimEndChars(s[..|s| - 1], isSpace);
      assert forall c :: c in s[..|s| - 1] ==> c in s;
    }
  }

  // ---------------------------------------------------------------------
  // Substrings

  predicate StartsWith(s: string, prefix: string) {
    |prefix| <= |s| && s[..|prefix|] == prefix
  }

  /** `s.includes(needle)` / AQL `CONTAINS(s, needle)`. */
  predicate Contains(s: string, needle: string)
    decreases |s|
  {
    StartsWith(s, needle) || (|s| > 0 && Contains(s[1..], needle))
  }

  /** The empty string is contained in every string. */
  lemma ContainsEmpty(s: string)
    ensures Contains(s, "")
  {
    assert StartsWith(s, "");
  }

  // ---------------------------------------------------------------------
  // Decimal rendering of integers (`String(n)`, Python `str(n)`)

  function DigitChar(d: nat): (c: char)
    requires d < 10
    ensures IsDigit(c)
  {
    ['0', '1', '2', '3', '4', '5', '6', '7', '8', '9'][d]
  }

  function NatToString(n: nat): (r: string)
    ensures |r| >= 1
    ensures forall i :: 0 <= i < |r| ==> IsDigit(r[i])
    decreases n
  {
    if n < 10 then [DigitChar(n)] else NatToString(n / 10) + [DigitChar(n % 10)]
  }

  function IntToString(n: int): (r: string)
    ensures |r| >= 1
    ensures forall i :: 0 <= i < |r| ==> IsDigit(r[i]) || (i == 0 && r[i] == '-')
    ensures IsDigit(r[0]) <==> n >= 0
  {
    if n < 0 then "-" + NatToString(-n) else NatToString(n)
  }

  // ---------------------------------------------------------------------
  // Numbers

  function AbsReal(x: real): real { if x < 0.0 then -x else x }

  /** The numbers `String` writes without an exponent: zero and every
      magnitude from 1e-6 up to, but not including, 1e21. */
  predicate PlainNotation(x: real) {
    x == 0.0 || (0.000001 <= AbsReal(x) < 1000000000000000000000.0)
  }

  /** The first digit of a number between 0 and 1 written in decimal. */
  function LeadingDigitBelowOne(x: real): (d: int)
    requires 0.0 < x < 1.0
    ensures 1 <= d <= 9
    decreases (1.0 / x).Floor
  {
    if x * 10.0 >= 1.0 then (x * 10.0).Floor
    else
      ReciprocalShrinks(x);
      LeadingDigitBelowOne(x * 10.0)
  }

  lemma ReciprocalShrinks(x: real)
    requires 0.0 < x && x * 10.0 < 1.0
    ensures (1.0 / (x * 10.0)).Floor < (1.0 / x).Floor
  {
    var y := 1.0 / x;
    assert y > 10.0;
    assert 1.0 / (x * 10.0) == y / 10.0;
    assert y / 10.0 <= y - 9.0;
  }

  /** The first digit of a number of at least 1 written in decimal. */
  function LeadingDigitFromOne(x: real): (d: int)
    requires x >= 1.0
    ensures 1 <= d <= 9
    decreases x.Floor
  {
    if x < 10.0 then x.Floor else LeadingDigitFromOne(x / 10.0)
  }

  /** The first digit of a positive number written in decimal. */
  function LeadingDigit(x: real): (d: int)
    requires x > 0.0
    ensures 1 <= d <= 9
  {
    if x < 1.0 then LeadingDigitBelowOne(x) else LeadingDigitFromOne(x)
  }

  /** `parseInt(String(x))` for a finite number.  `String` writes the
      numbers outside `PlainNotation` with an exponent (`5e-7`,
      `1.5e+21`), where `parseInt` stops at the `.` or the `e` and keeps the
      leading digit; every other number is truncated toward zero. */
  function TruncToInt(x: real): (r: int)
    ensures PlainNotation(x) && x >= 0.0 ==> r as real <= x < r as real + 1.0
    ensures PlainNotation(x) && x < 0.0 ==> r as real - 1.0 < x <= r as real
    ensures !PlainNotation(x) ==> (1 <= r <= 9 <==> x > 0.0) && (-9 <= r <= -1 <==> x < 0.0)
    ensures !PlainNotation(x) ==> r == (if x > 0.0 then LeadingDigit(x) else -LeadingDigit(-x))
  {
    if !PlainNotation(x) then (if x > 0.0 then LeadingDigit(x) else -LeadingDigit(-x))
    else if x >= 0.0 then x.Floor
    else -((-x).Floor)
  }

  /** A number argument with a default for `undefined`:
      `parseInt(String(x))` of the value given. */
  function ParamOrDefault(x: Option<real>, default: int): (r: int)
    ensures x == None ==> r == default
    ensures x.Some? && PlainNotation(x.value) && x.value >= 0.0 ==> r as real <= x.value < r as real + 1.0
    ensures x.Some? && PlainNotation(x.value) && x.value < 0.0 ==> r as real - 1.0 < x.value <= r as real
    ensures x.Some? && !PlainNotation(x.value) ==> -9 <= r <= 9 && r != 0
  {
    if x.Some? then TruncToInt(x.value) else default
  }

  /** Exponent notation on both sides: `parseInt(String(5e-7))` is 5,
      and `parseInt(String(-2.5e-8))` is -2, while `0.000001` still truncates
      to 0. */
  lemma TruncToIntExponentExamples()
    ensures TruncToInt(0.0000005) == 5
    ensures TruncToInt(-0.000000025) == -2
    ensures TruncToInt(0.000001) == 0
  {
  }

  /** `Math.ceil`. */
  function Ceil(x: real): (r: int)
    ensures r as real - 1.0 < x <= r as real
  {
    -((-x).Floor)
  }

  // ---------------------------------------------------------------------
  // Sequences: duplicates, LIMIT and a stable sort

  /** The elements of `s` in order of first occurrence. */
  function Dedup<T(==,!new)>(s: seq<T>): (r: seq<T>)
    ensures forall x :: x in r <==> x in s
    ensures forall i, j :: 0 <= i < j < |r| ==> r[i] != r[j]
    decreases |s|
  {
    if s == [] then []
    else
      var d := Dedup(s[..|s| - 1]);
      assert forall x :: x in s <==> x in s[..|s| - 1] || x == s[|s| - 1];
      if s[|s| - 1] in d then d else d + [s[|s| - 1]]
  }

  /** How many of `m` rows `LIMIT n` keeps. */
  function LimitCount(n: int, m: nat): nat {
    if n <= 0 then 0 else if n < m then n else m
  }

  /** AQL `LIMIT n` (a negative count yields no rows in this model). */
  function Take<T>(s: seq<T>, n: int): (r: seq<T>)
    ensures |r| == LimitCount(n, |s|)
    ensures r == s[..|r|]
  {
    if n <= 0 then [] else if n < |s| then s[..n] else s
  }

  ghost predicate TotalPreorder<T(!new)>(le: (T, T) -> bool) {
    && (forall a, b :: le(a, b) || le(b, a))
    && (forall a, b, c :: le(a, b) && le(b, c) ==> le(a, c))
  }

  ghost predicate SortedBy<T>(s: seq<T>, le: (T, T) -> bool) {
    forall i, j :: 0 <= i < j < |s| ==> le(s[i], s[j])
  }

  function Insert<T>(x: T, s: seq<T>, le: (T, T) -> bool): seq<T>
    decreases |s|
  {
    if s == [] then [x]
    else if le(x, s[0]) then [x] + s
    else [s[0]] + Insert(x, s[1..], le)
  }

  /** AQL `SORT`: a stable insertion sort.  The database leaves the order of
      ties open; the model keeps them in input order. */
  function SortBy<T>(s: seq<T>, le: (T, T) -> bool): seq<T>
    decreases |s|
  {
    if s == [] then [] else Insert(s[0], SortBy(s[1..], le), le)
  }

  lemma {:induction false} InsertPermutes<T>(x: T, s: seq<T>, le: (T, T) -> bool)
    ensures multiset(Insert(x, s, le)) == multiset(s) + multiset{x}
    decreases |s|
  {
    if s != [] && !le(x, s[0]) {
      InsertPermutes(x, s[1..], le);
      assert s == [s[0]] + s[1..];
    }
  }

  /** A lower bound of `x` and of every element of `s` bounds the result of
      inserting `x`. */
  lemma {:induction false} InsertLowerBound<T>(x: T, s: seq<T>, le: (T, T) -> bool, b: T)
    requires le(b, x) && forall k :: 0 <= k < |s| ==> le(b, s[k])
    ensures forall k :: 0 <= k < |Insert(x, s, le)| ==> le(b, Insert(x, s, le)[k])
    decreases |s|
  {
    if s != [] && !le(x, s[0]) {
      var t := s[1..];
      assert forall k :: 0 <= k < |t| ==> t[k] == s[k + 1];
      InsertLowerBound(x, t, le, b);
      var r := Insert(x, t, le);
      assert forall k :: 0 < k < |[s[0]] + r| ==> ([s[0]] + r)[k] == r[k - 1];
    }
  }

  /** A sorted sequence stays sorted behind a lower bound of it. */
  lemma ConsSorted<T>(a: T, r: seq<T>, le: (T, T) -> bool)
    requires SortedBy(r, le) && forall k :: 0 <= k < |r| ==> le(a, r[k])
    ensures SortedBy([a] + r, le)
  {
    var s := [a] + r;
    forall i, j | 0 <= i < j < |s| ensures le(s[i], s[j]) {
      assert s[j] == r[j - 1];
      if i > 0 { assert s[i] == r[i - 1]; }
    }
  }

  lemma {:induction false} InsertSorted<T(!new)>(x: T, s: seq<T>, le: (T, T) -> bool)
    requires TotalPreorder(le)
    requires SortedBy(s, le)
    ensures SortedBy(Insert(x, s, le), le)
    decreases |s|
  {
    if s == [] {
    } else if le(x, s[0]) {
      forall k | 0 <= k < |s| ensures le(x, s[k]) {
        if k > 0 { assert le(s[0], s[k]); }
      }
      ConsSorted(x, s, le);
    } else {
      var t := s[1..];
      assert SortedBy(t, le) by {
        forall i, j | 0 <= i < j < |t| ensures le(t[i], t[j]) {
          assert t[i] == s[i + 1] && t[j] == s[j + 1];
        }
      }
      InsertSorted(x, t, le);
      assert le(s[0], x);
      forall k | 0 <= k < |t| ensures le(s[0], t[k]) {
        assert t[k] == s[k + 1];
      }
      InsertLowerBound(x, t, le, s[0]);
      ConsSorted(s[0], Insert(x, t, le), le);
    }
  }

  lemma {:induction false} SortByPermutes<T>(s: seq<T>, le: (T, T) -> bool)
    ensures multiset(SortBy(s, le)) == multiset(s)
    decreases |s|
  {
    if s != [] {
      SortByPermutes(s[1..], le);
      InsertPermutes(s[0], SortBy(s[1..], le), le);
      assert s == [s[0]] + s[1..];
    }
  }

  lemma {:induction false} SortBySorted<T(!new)>(s: seq<T>, le: (T, T) -> bool)
    requires TotalPreorder(le)
    ensures SortedBy(SortBy(s, le), le)
    decreases |s|
  {
    if s != [] {
      SortBySorted(s[1..], le);
      InsertSorted(s[0], SortBy(s[1..], le), le);
    }
  }

  /** `SORT ... LIMIT n`: the first n elements of the sorted input. */
  function TopBy<T>(s: seq<T>, le: (T, T) -> bool, n: int): seq<T> {
    Take(SortBy(s, le), n)
  }

  /** What `SORT ... LIMIT n` promises: at most n rows, all drawn from the
      input, in order, and no row left out ranks before a row kept. */
  lemma TopByProperties<T(!new)>(s: seq<T>, le: (T, T) -> bool, n: int)
    requires TotalPreorder(le)
    ensures var r := TopBy(s, le, n);
      && |r| == LimitCount(n, |s|)
      && multiset(r) <= multiset(s)
      && SortedBy(r, le)
      && (forall x, y :: x in r && y in multiset(s) - multiset(r) ==> le(x, y))
  {
    var sorted := SortBy(s, le);
    SortByPermutes(s, le);
    SortBySorted(s, le);
    var r := Take(sorted, n);
    var rest := sorted[|r|..];
    assert sorted == r + rest;
    assert multiset(sorted) == multiset(r) + multiset(rest);
    forall x, y | x in r && y in multiset(s) - multiset(r) ensures le(x, y) {
      var i :| 0 <= i < |r| && r[i] == x;
      assert y in multiset(rest);
      var j :| 0 <= j < |rest| && rest[j] == y;
      assert sorted[i] == x && sorted[|r| + j] == y;
    }
  }

  /** The same promise phrased on membership: as many rows as `LIMIT n`
      keeps, all from the input, and every input row left out ranks after
      every row kept. */
  lemma TopBySelects<T(!new)>(s: seq<T>, le: (T, T) -> bool, n: int)
    requires TotalPreorder(le)
    ensures var r := TopBy(s, le, n);
      && |r| == LimitCount(n, |s|)
      && (forall x :: x in r ==> x in s)
      && SortedBy(r, le)
      && (forall x, y :: x in r && y in s && y !in r ==> le(x, y))
  {
    TopByProperties(s, le, n);
    var r := TopBy(s, le, n);
    forall x | x in r ensures x in s {
      TopByMember(s, le, n, x);
    }
    forall x, y | x in r && y in s && y !in r ensures le(x, y) {
      assert y in multiset(s) - multiset(r);
    }
  }

  /** No row of a `SORT ... LIMIT` result occurs more often than in the
      input. */
  lemma TopByWithin<T(!new)>(s: seq<T>, le: (T, T) -> bool, n: int)
    requires TotalPreorder(le)
    ensures multiset(TopBy(s, le, n)) <= multiset(s)
  {
    TopByProperties(s, le, n);
  }

  /** The rows of a `SORT ... LIMIT` result, each passed through `f`
      (`RETURN {...}`), are a sub-multiset of the input rows passed through
      `f`: no input row is returned twice. */
  lemma TopByMapped<T(!new), U>(s: seq<T>, le: (T, T) -> bool, n: int, f: T -> U)
    requires TotalPreorder(le)
    ensures multiset(Map(TopBy(s, le, n), f)) <= multiset(Map(s, f))
  {
    TopByProperties(s, le, n);
    MapSubMultiset(TopBy(s, le, n), s, f);
  }

  /** Every row of a `SORT ... LIMIT` result is a row of the input. */
  lemma TopByMember<T(!new)>(s: seq<T>, le: (T, T) -> bool, n: int, x: T)
    requires x in TopBy(s, le, n)
    ensures x in s
  {
    SortByPermutes(s, le);
    var sorted := SortBy(s, le);
    assert x in sorted;
    assert x in multiset(sorted);
  }

  /** The concatenation of `f` over `s` (nested `FOR` loops). */
  function FlatMap<T, U>(s: seq<T>, f: T -> seq<U>): seq<U>
    decreases |s|
  {
    if s == [] then [] else f(s[0]) + FlatMap(s[1..], f)
  }

  lemma {:induction false} FlatMapMember<T, U>(s: seq<T>, f: T -> seq<U>, u: U)
    requires u in FlatMap(s, f)
    ensures exists t :: t in s && u in f(t)
    decreases |s|
  {
    if u !in f(s[0]) {
      FlatMapMember(s[1..], f, u);
      var t :| t in s[1..] && u in f(t);
      assert t in s;
    }
  }

  lemma {:induction false} FlatMapHas<T, U>(s: seq<T>, f: T -> seq<U>, t: T, u: U)
    requires t in s && u in f(t)
    ensures u in FlatMap(s, f)
    decreases |s|
  {
    if s[0] != t {
      FlatMapHas(s[1..], f, t, u);
    }
  }

  /** The elements of `s` that satisfy `p`, in order (`FILTER`). */
  function Filter<T(!new)>(s: seq<T>, p: T -> bool): (r: seq<T>)
    ensures |r| <= |s|
    ensures forall x :: x in r <==> x in s && p(x)
    decreases |s|
  {
    if s == [] then []
    else
      assert forall x :: x in s <==> x == s[0] || x in s[1..];
      if p(s[0]) then [s[0]] + Filter(s[1..], p) else Filter(s[1..], p)
  }

  /** Filtering one more element appends it when it passes. */
  lemma {:induction false} FilterSnoc<T(!new)>(s: seq<T>, x: T, p: T -> bool)
    ensures Filter(s + [x], p) == Filter(s, p) + (if p(x) then [x] else [])
    decreases |s|
  {
    if s != [] {
      assert (s + [x])[1..] == s[1..] + [x];
      FilterSnoc(s[1..], x, p);
    }
  }

  /** `s.map(f)`. */
  function Map<T, U>(s: seq<T>, f: T -> U): (r: seq<U>)
    ensures |r| == |s|
    ensures forall i :: 0 <= i < |s| ==> r[i] == f(s[i])
  {
    seq(|s|, i requires 0 <= i < |s| => f(s[i]))
  }

  lemma MapHas<T, U>(s: seq<T>, f: T -> U)
    ensures forall x :: x in s ==> f(x) in Map(s, f)
  {
    forall x | x in s ensures f(x) in Map(s, f) {
      var i :| 0 <= i < |s| && s[i] == x;
      assert Map(s, f)[i] == f(x);
    }
  }

  lemma MapAppend<T, U>(a: seq<T>, b: seq<T>, f: T -> U)
    ensures Map(a + b, f) == Map(a, f) + Map(b, f)
  {
  }

  /** Mapping keeps sub-multisets: each copy of an element gives one copy
      of its image. */
  lemma {:induction false} MapSubMultiset<T, U>(a: seq<T>, b: seq<T>, f: T -> U)
    requires multiset(a) <= multiset(b)
    ensures multiset(Map(a, f)) <= multiset(Map(b, f))
    decreases |a|
  {
    if a != [] {
      var x := a[0];
      assert a == [x] + a[1..];
      assert x in multiset(b);
      var i :| 0 <= i < |b| && b[i] == x;
      var rest := b[..i] + b[i + 1..];
      assert b == b[..i] + [x] + b[i + 1..];
      assert multiset(b) == multiset(rest) + multiset{x};
      assert multiset(a) == multiset(a[1..]) + multiset{x};
      assert multiset(a[1..]) <= multiset(rest) by {
        forall y ensures multiset(a[1..])[y] <= multiset(rest)[y] {
          assert multiset(a)[y] <= multiset(b)[y];
        }
      }
      MapSubMultiset(a[1..], rest, f);
      MapAppend([x], a[1..], f);
      MapAppend(b[..i] + [x], b[i + 1..], f);
      MapAppend(b[..i], [x], f);
      MapAppend(b[..i], b[i + 1..], f);
    }
  }

  /** `items.join(sep)`. */
  function Join(items: seq<string>, sep: string): string
    decreases |items|
  {
    if items == [] then ""
    else if |items| == 1 then items[0]
    else items[0] + sep + Join(items[1..], sep)
  }
}
