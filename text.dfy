/** Character and string helpers shared by the models: Python's `str` methods
    (`strip`, `rstrip`, `upper`, `lower`, `count`, `split`, `in`, `startswith`)
    restricted to ASCII case mapping, and the stable sorts the source gets from
    `list.sort` and `sorted`. */
module Text {

  datatype Option<T> = None | Some(value: T)

  // ---------------------------------------------------------------------------
  // Characters
  // ---------------------------------------------------------------------------

  /** The characters Python's `str.strip()` and the regex class `\s` treat as
      whitespace (ASCII part). */
  predicate IsSpace(c: char) {
    c == ' ' || c == '\t' || c == '\n' || c == '\r' || c == '\U{000B}' || c == '\U{000C}'
  }

  predicate IsDigit(c: char) { '0' <= c <= '9' }

  predicate IsUpper(c: char) { 'A' <= c <= 'Z' }

  predicate IsLower(c: char) { 'a' <= c <= 'z' }

  function ToUpper(c: char): (r: char)
    ensures !IsLower(r)
    ensures !IsLower(c) ==> r == c
  {
    if IsLower(c) then (c as int - 32) as char else c
  }

  function ToLower(c: char): (r: char)
    ensures !IsUpper(r)
    ensures !IsUpper(c) ==> r == c
  {
    if IsUpper(c) then (c as int + 32) as char else c
  }

  /** `s.upper()` for ASCII letters. */
  function Upper(s: string): (r: string)
    ensures |r| == |s|
    ensures forall i :: 0 <= i < |s| ==> r[i] == ToUpper(s[i])
  {
    seq(|s|, i requires 0 <= i < |s| => ToUpper(s[i]))
  }

  /** `s.lower()` for ASCII letters. */
  function Lower(s: string): (r: string)
    ensures |r| == |s|
    ensures forall i :: 0 <= i < |s| ==> r[i] == ToLower(s[i])
  {
    seq(|s|, i requires 0 <= i < |s| => ToLower(s[i]))
  }

  // ---------------------------------------------------------------------------
  // Searching
  // ---------------------------------------------------------------------------

  predicate StartsWith(s: string, p: string) {
    |p| <= |s| && s[..|p|] == p
  }

  predicate OccursAt(s: string, p: string, i: nat) {
    i + |p| <= |s| && s[i..i + |p|] == p
  }

  /** `s.find(p)` from position `from`: the first occurrence at or after `from`. */
  function FindFrom(s: string, p: string, from: nat): (r: Option<nat>)
    decreases |s| - from
    ensures r.Some? ==> from <= r.value && OccursAt(s, p, r.value)
    ensures r.Some? ==> forall j: nat :: from <= j < r.value ==> !OccursAt(s, p, j)
    ensures r.None? ==> forall j: nat :: from <= j ==> !OccursAt(s, p, j)
  {
    if from + |p| > |s| then None
    else if s[from..from + |p|] == p then Some(from)
    else FindFrom(s, p, from + 1)
  }

  function Find(s: string, p: string): (r: Option<nat>)
    ensures r.Some? ==> OccursAt(s, p, r.value)
    ensures r.Some? ==> forall j: nat :: j < r.value ==> !OccursAt(s, p, j)
    ensures r.None? ==> forall j: nat :: !OccursAt(s, p, j)
  {
    FindFrom(s, p, 0)
  }

  /** Python's `p in s` for strings. */
  predicate Contains(s: string, p: string) {
    Find(s, p).Some?
  }

  lemma ContainsIff(s: string, p: string)
    ensures Contains(s, p) <==> exists i: nat :: OccursAt(s, p, i)
  {
    if Contains(s, p) {
      assert OccursAt(s, p, Find(s, p).value);
    }
  }

  /** `s.count(c)` for a single character. */
  function Count(s: string, c: char): (n: nat)
    ensures n <= |s|
  {
    if s == [] then 0 else (if s[0] == c then 1 else 0) + Count(s[1..], c)
  }

  // ---------------------------------------------------------------------------
  // Character runs
  // ---------------------------------------------------------------------------

  /** The end of the whitespace run (`\s*`) that starts at `i`. */
  function SkipSpaces(s: string, i: nat): (j: nat)
    requires i <= |s|
    decreases |s| - i
    ensures i <= j <= |s|
    ensures forall k :: i <= k < j ==> IsSpace(s[k])
    ensures j < |s| ==> !IsSpace(s[j])
  {
    if i < |s| && IsSpace(s[i]) then SkipSpaces(s, i + 1) else i
  }

  /** The class `[A-Z0-9.]`. */
  predicate CodeChar(c: char) {
    IsUpper(c) || IsDigit(c) || c == '.'
  }

  /** The length of the longest run of code characters starting at `i`. */
  function CodeRun(s: string, i: nat): (n: nat)
    requires i <= |s|
    decreases |s| - i
    ensures i + n <= |s|
    ensures forall k :: i <= k < i + n ==> CodeChar(s[k])
    ensures i + n < |s| ==> !CodeChar(s[i + n])
  {
    if i < |s| && CodeChar(s[i]) then 1 + CodeRun(s, i + 1) else 0
  }

  /** The length of the longest run of ASCII digits starting at `i` (`\d+` without the `+` check). */
  function DigitRun(s: string, i: nat): (n: nat)
    requires i <= |s|
    decreases |s| - i
    ensures i + n <= |s|
    ensures forall k :: i <= k < i + n ==> IsDigit(s[k])
    ensures i + n < |s| ==> !IsDigit(s[i + n])
  {
    if i < |s| && IsDigit(s[i]) then 1 + DigitRun(s, i + 1) else 0
  }

  /** The length of the longest run of `[A-Z]` starting at `i`. */
  function UpperRun(s: string, i: nat): (n: nat)
    requires i <= |s|
    decreases |s| - i
    ensures i + n <= |s|
    ensures forall k :: i <= k < i + n ==> IsUpper(s[k])
    ensures i + n < |s| ==> !IsUpper(s[i + n])
  {
    if i < |s| && IsUpper(s[i]) then 1 + UpperRun(s, i + 1) else 0
  }

  /** Python's `any(k in s for k in keywords)`. */
  predicate AnyIn(keywords: seq<string>, s: string) {
    exists i :: 0 <= i < |keywords| && Contains(s, keywords[i])
  }

  // ---------------------------------------------------------------------------
  // Stripping
  // ---------------------------------------------------------------------------

  /** The number of leading characters of `s` that are in `cs`. */
  function LeadingIn(s: string, cs: set<char>): (k: nat)
    ensures k <= |s|
    ensures forall i :: 0 <= i < k ==> s[i] in cs
    ensures k < |s| ==> s[k] !in cs
  {
    if s != [] && s[0] in cs then 1 + LeadingIn(s[1..], cs) else 0
  }

  /** The number of trailing characters of `s` that are in `cs`. */
  function TrailingIn(s: string, cs: set<char>): (k: nat)
    ensures k <= |s|
    ensures forall i :: |s| - k <= i < |s| ==> s[i] in cs
    ensures k < |s| ==> s[|s| - k - 1] !in cs
  {
    if s != [] && s[|s| - 1] in cs then 1 + TrailingIn(s[..|s| - 1], cs) else 0
  }

  /** `s.lstrip(chars)` for a set of characters. */
  function LStripSet(s: string, cs: set<char>): (r: string)
    ensures r != [] ==> r[0] !in cs
  {
    s[LeadingIn(s, cs)..]
  }

  /** `s.rstrip(chars)` for a set of characters. */
  function RStripSet(s: string, cs: set<char>): (r: string)
    ensures r != [] ==> r[|r| - 1] !in cs
  {
    s[..|s| - TrailingIn(s, cs)]
  }

  const Whitespace: set<char> := {' ', '\t', '\n', '\r', '\U{000B}', '\U{000C}'}

  lemma WhitespaceIsSpace(c: char)
    ensures c in Whitespace <==> IsSpace(c)
  {
  }

  /** The number of leading whitespace characters `s.strip()` removes. */
  function StripOffset(s: string): nat {
    LeadingIn(s, Whitespace)
  }

  /** `s.strip()`: a piece of `s` with no whitespace at either end. */
  function Strip(s: string): (r: string)
    ensures r != [] ==> !IsSpace(r[0]) && !IsSpace(r[|r| - 1])
  {
    var l := LStripSet(s, Whitespace);
    RStripSet(l, Whitespace)
  }

  /** The first position of `c` in `s`, if any. */
  function IndexOfChar(s: string, c: char): (r: Option<nat>)
    ensures r.Some? ==> r.value < |s| && s[r.value] == c && c !in s[..r.value]
    ensures r.None? ==> c !in s
  {
    if s == [] then None
    else if s[0] == c then Some(0)
    else
      var r := IndexOfChar(s[1..], c);
      if r.None? then None
      else
        assert s[..r.value + 1] == [s[0]] + s[1..][..r.value];
        Some(r.value + 1)
  }

  /** `s.split(sep)` for a one-character separator: never empty, no piece holds
      the separator, and joining the pieces with `sep` gives `s` back. */
  function Split(s: string, sep: char): (r: seq<string>)
    decreases |s|
    ensures |r| >= 1
    ensures forall k :: 0 <= k < |r| ==> sep !in r[k]
    ensures Join(r, [sep]) == s
  {
    match IndexOfChar(s, sep)
    case None => [s]
    case Some(i) =>
      var rest := Split(s[i + 1..], sep);
      var r := [s[..i]] + rest;
      assert r[1..] == rest;
      assert s == s[..i] + [sep] + s[i + 1..];
      r
  }

  /** `sep.join(parts)`. */
  function Join(parts: seq<string>, sep: string): string {
    if parts == [] then []
    else if |parts| == 1 then parts[0]
    else parts[0] + sep + Join(parts[1..], sep)
  }

  // ---------------------------------------------------------------------------
  // Ordering of strings (Python compares strings by code point)
  // ---------------------------------------------------------------------------

  predicate StrLess(a: string, b: string)
    decreases |a|
  {
    if a == [] then b != []
    else if b == [] then false
    else if a[0] < b[0] then true
    else if a[0] > b[0] then false
    else StrLess(a[1..], b[1..])
  }

  lemma {:induction false} StrLessIrreflexive(a: string)
    ensures !StrLess(a, a)
    decreases |a|
  {
    if a != [] { StrLessIrreflexive(a[1..]); }
  }

  lemma {:induction false} StrLessTotal(a: string, b: string)
    ensures StrLess(a, b) || a == b || StrLess(b, a)
    decreases |a|
  {
    if a != [] && b != [] && a[0] == b[0] {
      StrLessTotal(a[1..], b[1..]);
      if a[1..] == b[1..] {
        assert a == [a[0]] + a[1..] && b == [b[0]] + b[1..];
      }
    }
  }

  lemma {:induction false} StrLessTransitive(a: string, b: string, c: string)
    requires StrLess(a, b) && StrLess(b, c)
    ensures StrLess(a, c)
    decreases |a|
  {
    if a != [] && b != [] && c != [] && a[0] == b[0] && b[0] == c[0] {
      StrLessTransitive(a[1..], b[1..], c[1..]);
    }
  }

  lemma StrLessAsymmetric(a: string, b: string)
    requires StrLess(a, b)
    ensures !StrLess(b, a)
  {
    if StrLess(b, a) {
      StrLessTransitive(a, b, a);
      StrLessIrreflexive(a);
    }
  }

  /** Strictly increasing, as `sorted(set(...))` returns. */
  predicate StrictlySorted(s: seq<string>) {
    forall i, j :: 0 <= i < j < |s| ==> StrLess(s[i], s[j])
  }

  /** Inserts `x` into a strictly sorted list, dropping it when it is already there. */
  function InsertUnique(s: seq<string>, x: string): (r: seq<string>)
    requires StrictlySorted(s)
    ensures StrictlySorted(r)
    ensures forall y :: y in r <==> y in s || y == x
  {
    if s == [] then [x]
    else if x == s[0] then s
    else if StrLess(x, s[0]) then
      assert forall j :: 0 <= j < |s| ==> StrLess(x, s[j]) by {
        forall j | 0 <= j < |s| ensures StrLess(x, s[j]) {
          if j > 0 { StrLessTransitive(x, s[0], s[j]); }
        }
      }
      [x] + s
    else
      StrLessTotal(x, s[0]);
      var t := InsertUnique(s[1..], x);
      assert forall i :: 0 <= i < |t| ==> StrLess(s[0], t[i]) by {
        forall i | 0 <= i < |t| ensures StrLess(s[0], t[i]) {
          var y := t[i];
          assert y in t;
          if y != x {
            assert y in s[1..];
            var j :| 0 <= j < |s[1..]| && s[1..][j] == y;
            assert s[j + 1] == y;
          }
        }
      }
      assert s == [s[0]] + s[1..];
      [s[0]] + t
  }

  /** `sorted(set(xs))`: the distinct elements of `xs` in ascending order. */
  function SortedDistinct(xs: seq<string>): (r: seq<string>)
    ensures StrictlySorted(r)
    ensures forall y :: y in r <==> y in xs
  {
    if xs == [] then []
    else
      var r := InsertUnique(SortedDistinct(xs[..|xs| - 1]), xs[|xs| - 1]);
      assert xs == xs[..|xs| - 1] + [xs[|xs| - 1]];
      r
  }

  lemma StrictlySortedDistinct(s: seq<string>)
    requires StrictlySorted(s)
    ensures forall i, j :: 0 <= i < j < |s| ==> s[i] != s[j]
  {
    forall i, j | 0 <= i < j < |s| ensures s[i] != s[j] {
      if s[i] == s[j] { StrLessIrreflexive(s[i]); }
    }
  }

  // ---------------------------------------------------------------------------
  // Stable sort by an integer key (Python's `list.sort(key=...)`)
  // ---------------------------------------------------------------------------

  predicate SortedBy<T>(s: seq<T>, key: T -> int) {
    forall i, j :: 0 <= i < j < |s| ==> key(s[i]) <= key(s[j])
  }

  /** Puts `x` after every element whose key is not larger, so equal keys keep
      their arrival order. */
  function InsertStable<T>(s: seq<T>, x: T, key: T -> int): (r: seq<T>)
    requires SortedBy(s, key)
    ensures |r| == |s| + 1
    ensures r[0] == x || (s != [] && r[0] == s[0])
    ensures SortedBy(r, key)
  {
    if s == [] then [x]
    else if key(x) < key(s[0]) then [x] + s
    else
      var t := InsertStable(s[1..], x, key);
      assert key(s[0]) <= key(t[0]) by {
        if t[0] != x { assert t[0] == s[1]; }
      }
      SortedCons(s[0], t, key);
      [s[0]] + t
  }

  /** Inserting adds `x` and loses nothing. */
  lemma {:induction false} InsertStablePermutation<T>(s: seq<T>, x: T, key: T -> int)
    requires SortedBy(s, key)
    ensures multiset(InsertStable(s, x, key)) == multiset(s) + multiset{x}
  {
    if s != [] && key(x) >= key(s[0]) {
      var t := InsertStable(s[1..], x, key);
      InsertStablePermutation(s[1..], x, key);
      assert InsertStable(s, x, key) == [s[0]] + t;
      assert multiset([s[0]] + t) == multiset{s[0]} + multiset(t);
      assert s == [s[0]] + s[1..];
      assert multiset(s) == multiset{s[0]} + multiset(s[1..]);
    }
  }

  /** An element no larger than the head of a sorted sequence can go in
      front of it. */
  lemma SortedCons<T>(y: T, t: seq<T>, key: T -> int)
    requires SortedBy(t, key) && (t != [] ==> key(y) <= key(t[0]))
    ensures SortedBy([y] + t, key)
  {
    var r := [y] + t;
    forall i, j | 0 <= i < j < |r| ensures key(r[i]) <= key(r[j]) {
      if i == 0 { assert r[j] == t[j - 1]; } else { assert r[i] == t[i - 1] && r[j] == t[j - 1]; }
    }
  }

  /** A stable ascending sort by `key`. */
  function SortBy<T>(s: seq<T>, key: T -> int): (r: seq<T>)
    ensures SortedBy(r, key)
    ensures multiset(r) == multiset(s)
    ensures |r| == |s|
  {
    if s == [] then []
    else
      assert s == s[..|s| - 1] + [s[|s| - 1]];
      InsertStablePermutation(SortBy(s[..|s| - 1], key), s[|s| - 1], key);
      InsertStable(SortBy(s[..|s| - 1], key), s[|s| - 1], key)
  }

  /** The elements of `s` whose key is `k`, in their order in `s`. */
  function WithKey<T>(s: seq<T>, key: T -> int, k: int): seq<T> {
    if s == [] then []
    else (if key(s[0]) == k then [s[0]] else []) + WithKey(s[1..], key, k)
  }

  lemma {:induction false} WithKeyAppend<T>(a: seq<T>, b: seq<T>, key: T -> int, k: int)
    ensures WithKey(a + b, key, k) == WithKey(a, key, k) + WithKey(b, key, k)
  {
    if a == [] {
      assert a + b == b;
    } else {
      var ab := a + b;
      assert ab[0] == a[0] && ab[1..] == a[1..] + b;
      WithKeyAppend(a[1..], b, key, k);
      var h := if key(a[0]) == k then [a[0]] else [];
      calc {
        WithKey(ab, key, k);
        h + WithKey(a[1..] + b, key, k);
        h + (WithKey(a[1..], key, k) + WithKey(b, key, k));
        (h + WithKey(a[1..], key, k)) + WithKey(b, key, k);
      }
    }
  }

  /** A sorted sequence whose first key is above `k` has no element with key `k`. */
  lemma {:induction false} WithKeyAbove<T>(s: seq<T>, key: T -> int, k: int)
    requires SortedBy(s, key) && s != [] && k < key(s[0])
    ensures WithKey(s, key, k) == []
  {
    if |s| > 1 {
      WithKeyAbove(s[1..], key, k);
    }
  }

  /** Inserting `x` puts it after every element with its key. */
  lemma {:induction false} InsertStableKeys<T>(s: seq<T>, x: T, key: T -> int, k: int)
    requires SortedBy(s, key)
    ensures WithKey(InsertStable(s, x, key), key, k)
         == WithKey(s, key, k) + (if key(x) == k then [x] else [])
  {
    if s == [] {
    } else if key(x) < key(s[0]) {
      if key(x) == k { WithKeyAbove(s, key, k); }
      assert ([x] + s)[1..] == s;
    } else {
      var t := InsertStable(s[1..], x, key);
      InsertStableKeys(s[1..], x, key, k);
      assert ([s[0]] + t)[1..] == t;
    }
  }

  /** `SortBy` is stable: for every key, the elements carrying it come out
      in the order they went in. */
  lemma {:induction false} SortByStable<T>(s: seq<T>, key: T -> int, k: int)
    ensures WithKey(SortBy(s, key), key, k) == WithKey(s, key, k)
  {
    if s != [] {
      var n := |s| - 1;
      assert s == s[..n] + [s[n]];
      SortByStable(s[..n], key, k);
      InsertStableKeys(SortBy(s[..n], key), s[n], key, k);
      WithKeyAppend(s[..n], [s[n]], key, k);
      assert [s[n]][1..] == [];
    }
  }

  // ---------------------------------------------------------------------------
  // Filtering while transforming (a list comprehension with a condition)
  // ---------------------------------------------------------------------------

  /** `[f(x) for x in s]`. */
  function MapSeq<T, U>(f: T -> U, s: seq<T>): (r: seq<U>)
    ensures |r| == |s|
  {
    if s == [] then [] else MapSeq(f, s[..|s| - 1]) + [f(s[|s| - 1])]
  }

  lemma {:induction false} MapSeqAt<T, U>(f: T -> U, s: seq<T>)
    ensures forall i :: 0 <= i < |s| ==> MapSeq(f, s)[i] == f(s[i])
  {
    if s != [] {
      var n := |s| - 1;
      MapSeqAt(f, s[..n]);
      assert forall i :: 0 <= i < n ==> s[..n][i] == s[i];
    }
  }

  /** `[y for x in s if (y := f(x)) is not None]`, in order. */
  function FilterMap<T, U>(s: seq<T>, f: T -> Option<U>): (r: seq<U>)
    ensures |r| <= |s|
  {
    if s == [] then []
    else
      var y := f(s[|s| - 1]);
      FilterMap(s[..|s| - 1], f) + (if y.Some? then [y.value] else [])
  }

  /** One more element: `FilterMap` of a longer prefix extends the shorter one. */
  lemma FilterMapStep<T, U>(s: seq<T>, f: T -> Option<U>, i: nat)
    requires i < |s|
    ensures FilterMap(s[..i + 1], f) == FilterMap(s[..i], f) + (if f(s[i]).Some? then [f(s[i]).value] else [])
  {
    assert s[..i + 1][..i] == s[..i];
  }

  lemma {:induction false} FilterMapMembers<T, U>(s: seq<T>, f: T -> Option<U>, u: U)
    ensures u in FilterMap(s, f) <==> exists i :: 0 <= i < |s| && f(s[i]) == Some(u)
  {
    if s != [] {
      var n := |s| - 1;
      FilterMapMembers(s[..n], f, u);
      assert forall i :: 0 <= i < n ==> s[..n][i] == s[i];
    }
  }

  /** The index of the first element satisfying `p`. */
  function FirstIndex<T>(s: seq<T>, p: T -> bool): (r: Option<nat>)
    ensures r.Some? ==> r.value < |s|
  {
    if s == [] then None
    else if p(s[0]) then Some(0)
    else match FirstIndex(s[1..], p)
      case Some(i) => Some(i + 1)
      case None => None
  }

  lemma {:induction false} FirstIndexShape<T>(s: seq<T>, p: T -> bool)
    ensures FirstIndex(s, p).Some? ==>
              p(s[FirstIndex(s, p).value]) && forall j :: 0 <= j < FirstIndex(s, p).value ==> !p(s[j])
    ensures FirstIndex(s, p).None? ==> forall j :: 0 <= j < |s| ==> !p(s[j])
  {
    if s != [] {
      FirstIndexShape(s[1..], p);
      assert forall j :: 1 <= j < |s| ==> s[1..][j - 1] == s[j];
    }
  }

  lemma {:induction false} FirstIndexExt<T>(s: seq<T>, p: T -> bool, q: T -> bool)
    requires forall x :: p(x) == q(x)
    ensures FirstIndex(s, p) == FirstIndex(s, q)
  {
    if s != [] {
      FirstIndexExt(s[1..], p, q);
    }
  }

  /** The index of the last element satisfying `p`. */
  function LastIndex<T>(s: seq<T>, p: T -> bool): (r: Option<nat>)
    ensures r.Some? ==> r.value < |s|
  {
    if s == [] then None
    else if p(s[|s| - 1]) then Some(|s| - 1)
    else LastIndex(s[..|s| - 1], p)
  }

  lemma {:induction false} LastIndexShape<T>(s: seq<T>, p: T -> bool)
    ensures LastIndex(s, p).Some? ==>
              p(s[LastIndex(s, p).value]) && forall j :: LastIndex(s, p).value < j < |s| ==> !p(s[j])
    ensures LastIndex(s, p).None? ==> forall j :: 0 <= j < |s| ==> !p(s[j])
  {
    if s != [] {
      var n := |s| - 1;
      LastIndexShape(s[..n], p);
      assert forall j :: 0 <= j < n ==> s[..n][j] == s[j];
    }
  }

  lemma {:induction false} LastIndexExt<T>(s: seq<T>, p: T -> bool, q: T -> bool)
    requires forall x :: p(x) == q(x)
    ensures LastIndex(s, p) == LastIndex(s, q)
  {
    if s != [] {
      LastIndexExt(s[..|s| - 1], p, q);
    }
  }
}
