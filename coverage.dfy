/** The data-availability analysis of the hydrophone monitor
    (`check_data_availability`): the listed files are counted per day and
    per expected type, each type gets an expected number of files per day,
    and every day of the last N (and of the last three) is judged by its
    coverage against that expectation. Days are day numbers
    (`date.toordinal()`); coverage percentages are exact reals. */
module Coverage {
  import opened Text
  import opened Dict
  import Subject

  // ---------------------------------------------------------------------------
  // The file listing
  // ---------------------------------------------------------------------------

  /** A record's `dateFrom`: absent, or a text `fromisoformat` either reads
      as a day or rejects (then Python raises). */
  datatype DateFrom = NoDateFrom | IsoDate(day: Option<int>)

  /** One listed file: a bare file name, or a record whose missing
      `filename` reads as the empty name. */
  datatype FileInfo = FileName(name: string) | FileRecord(filename: string, dateFrom: DateFrom)

  function NameOf(f: FileInfo): string {
    match f
    case FileName(n) => n
    case FileRecord(n, _) => n
  }

  /** `re.search(r'(\d{8})', s)` from `from` on: the leftmost run of eight
      digits. */
  function FirstDigitRun(s: string, from: nat): (r: Option<nat>)
    ensures r.Some? ==> from <= r.value && Subject.DigitsAt(s, r.value, 8)
    decreases |s| - from
  {
    if from + 8 > |s| then None
    else if Subject.DigitsAt(s, from, 8) then Some(from)
    else FirstDigitRun(s, from + 1)
  }

  /** The run found is the leftmost at or after `from`; none is found only
      when there is none. */
  lemma {:induction false} FirstDigitRunLeftmost(s: string, from: nat)
    decreases |s| - from
    ensures var r := FirstDigitRun(s, from);
            (r.Some? ==> forall k :: from <= k < r.value ==> !Subject.DigitsAt(s, k, 8))
            && (r.None? ==> forall k :: from <= k ==> !Subject.DigitsAt(s, k, 8))
  {
    if from + 8 <= |s| && !Subject.DigitsAt(s, from, 8) {
      FirstDigitRunLeftmost(s, from + 1);
    }
  }

  /** The day the first eight-digit run of a file name spells as `%Y%m%d`,
      when `strptime` accepts it. */
  function NameDate(s: string): (r: Option<int>)
    ensures r.Some? ==> FirstDigitRun(s, 0).Some?
  {
    match FirstDigitRun(s, 0)
    case None => None
    case Some(i) =>
      var y := Subject.Number(s, i, 4);
      var m := Subject.Number(s, i + 4, 2);
      var d := Subject.Number(s, i + 6, 2);
      if y >= 1 && 1 <= m <= 12 && 1 <= d <= Subject.DaysInMonth(y, m) then Some(Subject.Ordinal(y, m, d))
      else None
  }

  /** A file name whose only eight-digit run is a valid `YYYYMMDD` right
      after a prefix reads as that day. */
  lemma NameDateFormatted(prefix: string, y: nat, m: nat, d: nat, suffix: string)
    requires 1 <= y <= 9999 && 1 <= m <= 12 && 1 <= d <= Subject.DaysInMonth(y, m)
    requires forall k :: !Subject.DigitsAt(prefix, k, 8)
    requires prefix == [] || !IsDigit(prefix[|prefix| - 1])
    ensures NameDate(prefix + Subject.Pad4(y) + Subject.Pad2(m) + Subject.Pad2(d) + suffix)
            == Some(Subject.Ordinal(y, m, d))
  {
    var s := prefix + Subject.Pad4(y) + Subject.Pad2(m) + Subject.Pad2(d) + suffix;
    var i := |prefix|;
    assert s[i..i + 4] == Subject.Pad4(y);
    assert s[i + 4..i + 6] == Subject.Pad2(m);
    assert s[i + 6..i + 8] == Subject.Pad2(d);
    Subject.NumberPad4(s, i, y);
    Subject.NumberPad2(s, i + 4, m);
    Subject.NumberPad2(s, i + 6, d);
    assert Subject.DigitsAt(s, i, 8);
    assert s[..i] == prefix;
    NoRunInPrefix(prefix, s);
    FirstDigitRunLeftmost(s, 0);
    assert FirstDigitRun(s, 0) == Some(i);
  }

  /** No eight-digit run starts inside a prefix that holds none and ends
      in a non-digit. */
  lemma NoRunInPrefix(prefix: string, s: string)
    requires |prefix| <= |s| && s[..|prefix|] == prefix
    requires forall k :: !Subject.DigitsAt(prefix, k, 8)
    requires prefix == [] || !IsDigit(prefix[|prefix| - 1])
    ensures forall k :: 0 <= k < |prefix| ==> !Subject.DigitsAt(s, k, 8)
  {
    var i := |prefix|;
    forall k | 0 <= k < i
      ensures !Subject.DigitsAt(s, k, 8)
    {
      if k + 8 <= i {
        assert !Subject.DigitsAt(prefix, k, 8);
        var j :| k <= j < k + 8 && !IsDigit(prefix[j]);
        assert s[j] == s[..i][j] == prefix[j];
      } else {
        assert s[i - 1] == s[..i][i - 1] == prefix[i - 1];
      }
    }
  }

  /** `filename.split('.')[-1].lower()`, taken when the name holds a dot. */
  function ExtensionOf(name: string): (r: Option<string>)
    ensures r.Some? <==> '.' in name
  {
    if '.' in name then
      var parts := Split(name, '.');
      Some(Lower(parts[|parts| - 1]))
    else None
  }

  /** The piece after the last separator is the last piece of a split. */
  lemma {:induction false} SplitLast(a: string, sep: char, b: string)
    requires sep !in b
    ensures var r := Split(a + [sep] + b, sep); r[|r| - 1] == b
    decreases |a|
  {
    var s := a + [sep] + b;
    assert s[|a|] == sep;
    var i := IndexOfChar(s, sep).value;
    if i == |a| {
      assert s[i + 1..] == b;
      assert IndexOfChar(b, sep).None?;
    } else {
      assert i < |a|;
      assert s[i + 1..] == a[i + 1..] + [sep] + b;
      SplitLast(a[i + 1..], sep, b);
    }
  }

  /** A name ending in `.ext` has extension `ext` in lower case. */
  lemma ExtensionAfterDot(stem: string, ext: string)
    requires '.' !in ext
    ensures ExtensionOf(stem + "." + ext) == Some(Lower(ext))
  {
    var s := stem + "." + ext;
    assert s[|stem|] == '.';
    SplitLast(stem, '.', ext);
  }

  datatype FileDay = Malformed | Undated | Dated(day: int)

  /** A record whose `dateFrom` does not parse. */
  predicate BadDate(f: FileInfo) {
    f.FileRecord? && f.dateFrom == IsoDate(None)
  }

  /** The day a listed file is counted under: from `dateFrom` when the
      record has one, else from the file name. */
  function DayOf(f: FileInfo): (r: FileDay)
    ensures r.Malformed? <==> BadDate(f)
  {
    match f
    case FileRecord(_, IsoDate(d)) => if d.Some? then Dated(d.value) else Malformed
    case _ => NameDay(NameOf(f))
  }

  /** The day a non-empty file name spells, if any. */
  function NameDay(name: string): (r: FileDay)
    ensures !r.Malformed?
  {
    if name != [] && NameDate(name).Some? then Dated(NameDate(name).value) else Undated
  }

  /** What the counting loop reads off one listed file: its day and its
      extension. */
  datatype Entry = Entry(day: FileDay, ext: Option<string>)

  function Digest(f: FileInfo): Entry {
    Entry(DayOf(f), ExtensionOf(NameOf(f)))
  }

  function Digests(files: seq<FileInfo>): (es: seq<Entry>)
    ensures |es| == |files|
    ensures forall i :: 0 <= i < |files| ==> es[i] == Digest(files[i])
  {
    seq(|files|, i requires 0 <= i < |files| => Digest(files[i]))
  }

  /** A dated file whose extension is one of the expected types. */
  predicate Counted(e: Entry, types: seq<string>) {
    e.day.Dated? && e.ext.Some? && e.ext.value in types
  }

  // ---------------------------------------------------------------------------
  // Counting files per day and type (`files_by_date_and_type`)
  // ---------------------------------------------------------------------------

  /** `files_by_date_and_type`: the days in the order they were first seen,
      and per day the number of files of each expected type. */
  datatype Counts = Counts(days: seq<int>, byDay: map<int, map<string, nat>>)

  datatype Scan = Scan(counts: Counts, last: Option<int>)

  /** `date_data.get(t, 0)` for day `d`, and 0 for an unlisted day. */
  function DayCount(counts: Counts, d: int, t: string): nat {
    if d in counts.byDay && t in counts.byDay[d] then counts.byDay[d][t] else 0
  }

  /** `last_data_found` after a file of day `d` counts. */
  function Newer(last: Option<int>, d: int): Option<int> {
    if last.None? || d > last.value then Some(d) else last
  }

  /** One dated file: its day gets an entry, and an expected extension
      adds one to that day's count and may advance the newest day. */
  function AddFile(sc: Scan, d: int, ext: Option<string>, types: seq<string>): Scan {
    var c := sc.counts;
    var day := if d in c.byDay then c.byDay[d] else map[];
    var days := if d in c.byDay then c.days else c.days + [d];
    if ext.Some? && ext.value in types then
      var n := if ext.value in day then day[ext.value] else 0;
      Scan(Counts(days, c.byDay[d := day[ext.value := n + 1]]), Newer(sc.last, d))
    else
      Scan(Counts(days, c.byDay[d := day]), sc.last)
  }

  /** One file of the listing; `None` when its `dateFrom` is malformed. */
  function ScanStep(sc: Scan, e: Entry, types: seq<string>): (r: Option<Scan>)
    ensures r.None? <==> e.day.Malformed?
  {
    match e.day
    case Malformed => None
    case Undated => Some(sc)
    case Dated(d) => Some(AddFile(sc, d, e.ext, types))
  }

  /** The listing read file by file; `None` once a `dateFrom` is malformed
      (Python raises and the device is reported as `error`). */
  function ScanFiles(es: seq<Entry>, types: seq<string>): Option<Scan> {
    if es == [] then Some(Scan(Counts([], map[]), None))
    else
      match ScanFiles(es[..|es| - 1], types)
      case None => None
      case Some(sc) => ScanStep(sc, es[|es| - 1], types)
  }

  /** The number of listed files of day `d` with extension `t`. */
  function NumFiles(es: seq<Entry>, d: int, t: string): nat {
    if es == [] then 0
    else NumFiles(es[..|es| - 1], d, t) + (if es[|es| - 1] == Entry(Dated(d), Some(t)) then 1 else 0)
  }

  /** The scan fails exactly when some file has a malformed `dateFrom`. */
  lemma {:induction false} ScanFilesFails(es: seq<Entry>, types: seq<string>)
    ensures ScanFiles(es, types).None? <==> exists i :: 0 <= i < |es| && es[i].day.Malformed?
  {
    if es != [] {
      var n := |es| - 1;
      ScanFilesFails(es[..n], types);
      assert forall i :: 0 <= i < n ==> es[..n][i] == es[i];
    }
  }

  /** Each expected type's count for a day is the number of listed files of
      that day and type. */
  lemma {:induction false} ScanCounts(es: seq<Entry>, types: seq<string>, d: int, t: string)
    requires ScanFiles(es, types).Some? && t in types
    ensures DayCount(ScanFiles(es, types).value.counts, d, t) == NumFiles(es, d, t)
  {
    if es != [] {
      var n := |es| - 1;
      var e := es[n];
      ScanCounts(es[..n], types, d, t);
      var sc := ScanFiles(es[..n], types).value;
      match e.day
      case Undated =>
      case Dated(d') =>
        var r := AddFile(sc, d', e.ext, types);
        assert ScanFiles(es, types) == Some(r);
    }
  }

  /** The newest day is the latest day of a counted file, and there is one
      exactly when some file counts. */
  lemma {:induction false} ScanLast(es: seq<Entry>, types: seq<string>)
    requires ScanFiles(es, types).Some?
    ensures var last := ScanFiles(es, types).value.last;
            (last.None? <==> forall i :: 0 <= i < |es| ==> !Counted(es[i], types))
            && (last.Some? ==> (exists i :: 0 <= i < |es| && Counted(es[i], types) && es[i].day.day == last.value)
                               && forall i :: 0 <= i < |es| && Counted(es[i], types) ==> es[i].day.day <= last.value)
  {
    if es != [] {
      var n := |es| - 1;
      ScanLast(es[..n], types);
      assert forall i :: 0 <= i < n ==> es[..n][i] == es[i];
      var sc := ScanFiles(es[..n], types).value;
      var e := es[n];
      if e.day.Dated? {
        assert ScanFiles(es, types) == Some(AddFile(sc, e.day.day, e.ext, types));
      }
    }
  }

  /** The counting loop over the file listing. */
  method CountFiles(files: seq<FileInfo>, types: seq<string>) returns (ok: bool, counts: Counts, last: Option<int>)
    ensures ok <==> ScanFiles(Digests(files), types).Some?
    ensures ok ==> ScanFiles(Digests(files), types) == Some(Scan(counts, last))
  {
    ghost var es := Digests(files);
    counts, last := Counts([], map[]), None;
    var i := 0;
    while i < |files|
      invariant 0 <= i <= |files|
      invariant ScanFiles(es[..i], types) == Some(Scan(counts, last))
    {
      assert es[..i + 1][..i] == es[..i];
      var entry := Digest(files[i]);
      assert entry == es[i];
      match entry.day {
        case Malformed =>
          ok := false;
          ScanFilesFails(es, types);
          return;
        case Undated =>
        case Dated(d) =>
          counts, last := CountFile(counts, last, d, entry.ext, types);
      }
      i := i + 1;
    }
    assert es[..i] == es;
    ok := true;
  }

  /** The body of the counting loop for a dated file. */
  method CountFile(counts0: Counts, last0: Option<int>, d: int, ext: Option<string>, types: seq<string>)
    returns (counts: Counts, last: Option<int>)
    ensures Scan(counts, last) == AddFile(Scan(counts0, last0), d, ext, types)
  {
    counts, last := counts0, last0;
    var dm := if d in counts.byDay then counts.byDay[d] else map[];
    if ext.Some? && ext.value in types {
      var e := ext.value;
      var c := if e in dm then dm[e] else 0;
      dm := dm[e := c + 1];
      if last.None? || d > last.value {
        last := Some(d);
      }
    }
    var days := if d in counts.byDay then counts.days else counts.days + [d];
    counts := Counts(days, counts.byDay[d := dm]);
  }

  // ---------------------------------------------------------------------------
  // Expected files per day (`expected_files_per_day`)
  // ---------------------------------------------------------------------------

  /** The positive counts of type `t`, one per listed day, in listing order
      (`file_counts_by_type[t]`). */
  function PositiveCounts(days: seq<int>, byDay: map<int, map<string, nat>>, t: string): (r: seq<nat>)
    ensures |r| <= |days|
  {
    if days == [] then []
    else
      var d := days[|days| - 1];
      var n := if d in byDay && t in byDay[d] then byDay[d][t] else 0;
      PositiveCounts(days[..|days| - 1], byDay, t) + (if n > 0 then [n] else [])
  }

  function Identity(x: nat): int { x }

  /** `sorted(c)[len(c) // 2]`: the upper median. */
  function UpperMedian(c: seq<nat>): (m: nat)
    requires c != []
    ensures m in c
  {
    var s := SortBy(c, Identity);
    assert s[|c| / 2] in multiset(s);
    s[|c| / 2]
  }

  /** `max(median, 4)` for a type seen on some day, 12 otherwise. */
  function Baseline(c: seq<nat>): (e: nat)
    ensures e >= 4
  {
    if c == [] then 12
    else if UpperMedian(c) >= 4 then UpperMedian(c) else 4
  }

  function ExpectedPerDay(counts: Counts, t: string): nat {
    Baseline(PositiveCounts(counts.days, counts.byDay, t))
  }

  /** A comparison with a fixed value. */
  datatype Cmp = Below(m: nat) | AtMost(m: nat)

  predicate Holds(p: Cmp, x: nat) {
    match p
    case Below(m) => x < m
    case AtMost(m) => x <= m
  }

  /** The number of counts satisfying `p`. */
  function CountWhere(c: seq<nat>, p: Cmp): (k: nat)
    ensures k <= |c|
  {
    if c == [] then 0 else CountWhere(c[..|c| - 1], p) + (if Holds(p, c[|c| - 1]) then 1 else 0)
  }

  lemma {:induction false} CountWhereAppend(a: seq<nat>, b: seq<nat>, p: Cmp)
    ensures CountWhere(a + b, p) == CountWhere(a, p) + CountWhere(b, p)
    decreases |b|
  {
    if b != [] {
      var n := |b| - 1;
      assert (a + b)[..|a + b| - 1] == a + b[..n];
      assert (a + b)[|a + b| - 1] == b[n];
      CountWhereAppend(a, b[..n], p);
    } else {
      assert a + b == a;
    }
  }

  /** Taking out the element at `j`. */
  lemma CountWhereRemove(b: seq<nat>, j: nat, p: Cmp)
    requires j < |b|
    ensures CountWhere(b, p) == CountWhere(b[..j] + b[j + 1..], p) + (if Holds(p, b[j]) then 1 else 0)
    ensures multiset(b[..j] + b[j + 1..]) == multiset(b) - multiset{b[j]}
  {
    assert b == (b[..j] + [b[j]]) + b[j + 1..];
    CountWhereAppend(b[..j] + [b[j]], b[j + 1..], p);
    CountWhereAppend(b[..j], [b[j]], p);
    CountWhereAppend(b[..j], b[j + 1..], p);
  }

  /** Counting does not depend on the order. */
  lemma {:induction false} CountWherePermutation(a: seq<nat>, b: seq<nat>, p: Cmp)
    requires multiset(a) == multiset(b)
    ensures CountWhere(a, p) == CountWhere(b, p)
    decreases |a|
  {
    if a != [] {
      var n := |a| - 1;
      var x := a[n];
      assert a == a[..n] + [x];
      assert multiset(a[..n]) == multiset(a) - multiset{x};
      assert x in multiset(b);
      var j :| 0 <= j < |b| && b[j] == x;
      CountWhereRemove(b, j, p);
      CountWherePermutation(a[..n], b[..j] + b[j + 1..], p);
    }
  }

  /** In an ascending list, nothing from index `h` on is below `s[h]`. */
  lemma {:induction false} SortedBelow(s: seq<nat>, h: nat, m: nat)
    requires h <= |s|
    requires forall i :: h <= i < |s| ==> s[i] >= m
    ensures CountWhere(s, Below(m)) <= h
    decreases |s|
  {
    if |s| > h {
      var n := |s| - 1;
      SortedBelow(s[..n], h, m);
    }
  }

  /** In an ascending list, everything up to index `h` is at most `s[h]`. */
  lemma {:induction false} SortedAtMost(s: seq<nat>, h: nat, m: nat)
    requires h < |s|
    requires forall i :: 0 <= i <= h ==> s[i] <= m
    ensures CountWhere(s, AtMost(m)) > h
    decreases |s|
  {
    var n := |s| - 1;
    if n > h {
      SortedAtMost(s[..n], h, m);
    } else {
      assert CountWhere(s[..n], AtMost(m)) == n by {
        AllCounted(s[..n], m);
      }
    }
  }

  lemma {:induction false} AllCounted(s: seq<nat>, m: nat)
    requires forall i :: 0 <= i < |s| ==> s[i] <= m
    ensures CountWhere(s, AtMost(m)) == |s|
    decreases |s|
  {
    if s != [] {
      AllCounted(s[..|s| - 1], m);
    }
  }

  /** The upper median of `n` counts: at most `n // 2` of them are below it
      and more than `n // 2` are at most it. */
  lemma UpperMedianRank(c: seq<nat>)
    requires c != []
    ensures var m := UpperMedian(c);
            CountWhere(c, Below(m)) <= |c| / 2 < CountWhere(c, AtMost(m))
  {
    var s := SortBy(c, Identity);
    var h := |c| / 2;
    var m := s[h];
    SortedAroundMedian(s, h);
    SortedBelow(s, h, m);
    SortedAtMost(s, h, m);
    CountWherePermutation(c, s, Below(m));
    CountWherePermutation(c, s, AtMost(m));
  }

  /** In a sorted list, the entries from `h` on are at least its entry at
      `h`, and those up to `h` at most it. */
  lemma SortedAroundMedian(s: seq<nat>, h: nat)
    requires SortedBy(s, Identity) && h < |s|
    ensures forall i :: h <= i < |s| ==> s[i] >= s[h]
    ensures forall i :: 0 <= i <= h ==> s[i] <= s[h]
  {
    forall i | h < i < |s| ensures s[i] >= s[h] {
      assert Identity(s[h]) <= Identity(s[i]);
    }
    forall i | 0 <= i < h ensures s[i] <= s[h] {
      assert Identity(s[i]) <= Identity(s[h]);
    }
  }

  /** The counts 2, 4, 4 and 6 give an expectation of 4 files per day. */
  lemma BaselineExample()
    ensures Baseline([6, 2, 4, 4]) == 4
  {
    var c: seq<nat> := [6, 2, 4, 4];
    UpperMedianRank(c);
  }

  /** The loop that gathers the positive counts per type, then the median
      of each. */
  method ExpectedFilesPerDay(counts: Counts, types: seq<string>) returns (exps: seq<nat>)
    ensures |exps| == |types|
    ensures forall i :: 0 <= i < |types| ==> exps[i] == ExpectedPerDay(counts, types[i])
  {
    var lists := GatherAll(counts, types);
    exps := [];
    var j := 0;
    while j < |types|
      invariant 0 <= j <= |types|
      invariant exps == MapSeq(ExpectedFor(counts), types[..j])
    {
      assert types[..j + 1][..j] == types[..j];
      assert lists[j] == PositiveCounts(counts.days, counts.byDay, types[j]);
      var expected := Baseline(lists[j]);
      exps := exps + [expected];
      j := j + 1;
    }
    assert types[..j] == types;
    MapSeqAt(ExpectedFor(counts), types);
    forall i | 0 <= i < |types| ensures exps[i] == ExpectedPerDay(counts, types[i]) {
      assert exps[i] == ExpectedFor(counts)(types[i]);
    }
  }

  function ExpectedFor(counts: Counts): string -> nat {
    (t: string) => ExpectedPerDay(counts, t)
  }

  /** The loop over the days collecting, for each type, its positive
      daily counts. */
  method GatherAll(counts: Counts, types: seq<string>) returns (lists: seq<seq<nat>>)
    ensures |lists| == |types|
    ensures forall i :: 0 <= i < |types| ==> lists[i] == PositiveCounts(counts.days, counts.byDay, types[i])
  {
    lists := seq(|types|, _ => []);
    var k := 0;
    while k < |counts.days|
      invariant 0 <= k <= |counts.days|
      invariant |lists| == |types|
      invariant forall i :: 0 <= i < |types| ==> lists[i] == PositiveCounts(counts.days[..k], counts.byDay, types[i])
    {
      lists := GatherDay(counts, types, k, lists);
      k := k + 1;
    }
    assert counts.days[..k] == counts.days;
  }

  /** One day's entry appended to the per-type lists of positive counts. */
  method GatherDay(counts: Counts, types: seq<string>, k: nat, lists0: seq<seq<nat>>) returns (lists: seq<seq<nat>>)
    requires k < |counts.days| && |lists0| == |types|
    requires forall i :: 0 <= i < |types| ==> lists0[i] == PositiveCounts(counts.days[..k], counts.byDay, types[i])
    ensures |lists| == |types|
    ensures forall i :: 0 <= i < |types| ==> lists[i] == PositiveCounts(counts.days[..k + 1], counts.byDay, types[i])
  {
    var prefix := counts.days[..k + 1];
    assert prefix[..k] == counts.days[..k];
    var d := counts.days[k];
    assert prefix[|prefix| - 1] == d;
    var dm := if d in counts.byDay then counts.byDay[d] else map[];
    lists := lists0;
    var j := 0;
    while j < |types|
      invariant 0 <= j <= |types|
      invariant |lists| == |types|
      invariant forall i :: 0 <= i < j ==> lists[i] == PositiveCounts(prefix, counts.byDay, types[i])
      invariant forall i :: j <= i < |types| ==> lists[i] == PositiveCounts(counts.days[..k], counts.byDay, types[i])
    {
      var t := types[j];
      assert PositiveCounts(prefix, counts.byDay, t)
             == PositiveCounts(counts.days[..k], counts.byDay, t) + (if t in dm && dm[t] > 0 then [dm[t]] else []);
      if t in dm && dm[t] > 0 {
        lists := lists[j := lists[j] + [dm[t]]];
      }
      j := j + 1;
    }
  }

  // ---------------------------------------------------------------------------
  // Daily coverage
  // ---------------------------------------------------------------------------

  /** Every expected type has a positive expectation. */
  predicate Expectations(types: seq<string>, exps: seq<nat>) {
    |types| == |exps| && forall i :: 0 <= i < |exps| ==> exps[i] > 0
  }

  predicate Present(counts: Counts, d: int) {
    d in counts.byDay
  }

  /** `actual / expected * 100`. */
  function Percent(actual: nat, expected: nat): (p: real)
    requires expected > 0
  {
    actual as real / expected as real * 100.0
  }

  /** `coverage_pct >= coverage_threshold * 100`, cross-multiplied. */
  predicate Adequate(actual: nat, expected: nat) {
    10 * actual >= 3 * expected
  }

  /** The threshold is inclusive: adequate exactly at 30% and above. */
  lemma AdequateIff(actual: nat, expected: nat)
    requires expected > 0
    ensures Adequate(actual, expected) <==> Percent(actual, expected) >= 30.0
    ensures Percent(actual, expected) >= 0.0
  {
    var p := Percent(actual, expected);
    var q := actual as real / expected as real;
    assert q * expected as real == actual as real;
    assert p * expected as real == 100.0 * actual as real;
  }

  /** The coverage value a day contributes for one type: its percentage,
      or 0 for an unlisted day. */
  function CoverageOn(counts: Counts, d: int, t: string, e: nat): real
    requires e > 0
  {
    if Present(counts, d) then Percent(DayCount(counts, d, t), e) else 0.0
  }

  /** The type falls short on day `d`. */
  predicate Missed(counts: Counts, d: int, t: string, e: nat) {
    !Present(counts, d) || !Adequate(DayCount(counts, d, t), e)
  }

  /** Some expected type reaches 30% on day `d`. */
  predicate Covered(counts: Counts, d: int, types: seq<string>, exps: seq<nat>)
    requires |types| == |exps|
  {
    Present(counts, d) && exists i :: 0 <= i < |types| && Adequate(DayCount(counts, d, types[i]), exps[i])
  }

  /** A day is poor exactly when no expected type reaches 30% of its
      expectation on it. */
  lemma PoorDayIff(counts: Counts, d: int, types: seq<string>, exps: seq<nat>)
    requires Expectations(types, exps)
    ensures !Covered(counts, d, types, exps)
            <==> forall i :: 0 <= i < |types| ==> CoverageOn(counts, d, types[i], exps[i]) < 30.0
  {
    forall i | 0 <= i < |types| {
      AdequateIff(DayCount(counts, d, types[i]), exps[i]);
    }
  }

  /** Over the days `today`, `today - 1`, ..., `today - (k - 1)`: the days
      type `t` was missed. */
  function MissedDays(counts: Counts, t: string, e: nat, today: int, k: nat): (r: nat)
    ensures r <= k
  {
    if k == 0 then 0
    else MissedDays(counts, t, e, today, k - 1) + (if Missed(counts, today - (k - 1), t, e) then 1 else 0)
  }

  /** Over the same days: the days no type was covered. */
  function PoorDays(counts: Counts, types: seq<string>, exps: seq<nat>, today: int, k: nat): (r: nat)
    requires |types| == |exps|
    ensures r <= k
  {
    if k == 0 then 0
    else PoorDays(counts, types, exps, today, k - 1) + (if Covered(counts, today - (k - 1), types, exps) then 0 else 1)
  }

  /** Over the same days, newest first: the coverage of type `t`. */
  function CoverageSeries(counts: Counts, t: string, e: nat, today: int, k: nat): (r: seq<real>)
    requires e > 0
    ensures |r| == k
  {
    if k == 0 then []
    else CoverageSeries(counts, t, e, today, k - 1) + [CoverageOn(counts, today - (k - 1), t, e)]
  }

  /** Entry `j` of a coverage series is the coverage `j` days ago, and never
      negative. */
  lemma {:induction false} CoverageSeriesAt(counts: Counts, t: string, e: nat, today: int, k: nat, j: nat)
    requires e > 0 && j < k
    ensures CoverageSeries(counts, t, e, today, k)[j] == CoverageOn(counts, today - j, t, e) >= 0.0
  {
    if j < k - 1 {
      CoverageSeriesAt(counts, t, e, today, k - 1, j);
    }
    AdequateIff(DayCount(counts, today - j, t), e);
  }

  /** Every day of the window was poor when the poor-day count is the
      window's length. */
  lemma {:induction false} AllPoor(counts: Counts, types: seq<string>, exps: seq<nat>, today: int, k: nat)
    requires |types| == |exps|
    requires PoorDays(counts, types, exps, today, k) == k
    ensures forall d :: today - k < d <= today ==> !Covered(counts, d, types, exps)
  {
    if k > 0 {
      AllPoor(counts, types, exps, today, k - 1);
    }
  }

  /** The day loop (`for days_ago in range(k)`) with its loop over types:
      per type the days missed and the coverage series, and the poor days. */
  method ScanWindow(counts: Counts, types: seq<string>, exps: seq<nat>, today: int, k: nat)
    returns (missing: seq<nat>, coverage: seq<seq<real>>, poor: nat)
    requires Expectations(types, exps)
    ensures |missing| == |types| && |coverage| == |types|
    ensures forall i :: 0 <= i < |types| ==> missing[i] == MissedDays(counts, types[i], exps[i], today, k)
    ensures forall i :: 0 <= i < |types| ==> coverage[i] == CoverageSeries(counts, types[i], exps[i], today, k)
    ensures poor == PoorDays(counts, types, exps, today, k)
  {
    missing := seq(|types|, _ => 0);
    coverage := seq(|types|, _ => []);
    poor := 0;
    var a := 0;
    while a < k
      invariant 0 <= a <= k
      invariant |missing| == |types| && |coverage| == |types|
      invariant forall i :: 0 <= i < |types| ==> missing[i] == MissedDays(counts, types[i], exps[i], today, a)
      invariant forall i :: 0 <= i < |types| ==> coverage[i] == CoverageSeries(counts, types[i], exps[i], today, a)
      invariant poor == PoorDays(counts, types, exps, today, a)
    {
      var covered;
      missing, coverage, covered := ScanDay(counts, types, exps, today, a, missing, coverage);
      if !covered {
        poor := poor + 1;
      }
      a := a + 1;
    }
  }

  /** One day of the window: every type's coverage is recorded, the types
      short of 30% count a missed day, and whether any type was covered. */
  method ScanDay(counts: Counts, types: seq<string>, exps: seq<nat>, today: int, a: nat,
                 missing0: seq<nat>, coverage0: seq<seq<real>>)
    returns (missing: seq<nat>, coverage: seq<seq<real>>, covered: bool)
    requires Expectations(types, exps)
    requires |missing0| == |types| && |coverage0| == |types|
    requires forall i :: 0 <= i < |types| ==> missing0[i] == MissedDays(counts, types[i], exps[i], today, a)
    requires forall i :: 0 <= i < |types| ==> coverage0[i] == CoverageSeries(counts, types[i], exps[i], today, a)
    ensures |missing| == |types| && |coverage| == |types|
    ensures forall i :: 0 <= i < |types| ==> missing[i] == MissedDays(counts, types[i], exps[i], today, a + 1)
    ensures forall i :: 0 <= i < |types| ==> coverage[i] == CoverageSeries(counts, types[i], exps[i], today, a + 1)
    ensures covered == Covered(counts, today - a, types, exps)
  {
    var d := today - a;
    missing, coverage, covered := missing0, coverage0, false;
    var entry := if d in counts.byDay then Some(counts.byDay[d]) else None;
    var j := 0;
    while j < |types|
      invariant 0 <= j <= |types|
      invariant |missing| == |types| && |coverage| == |types|
      invariant forall i :: 0 <= i < j ==> missing[i] == MissedDays(counts, types[i], exps[i], today, a + 1)
      invariant forall i :: j <= i < |types| ==> missing[i] == MissedDays(counts, types[i], exps[i], today, a)
      invariant forall i :: 0 <= i < j ==> coverage[i] == CoverageSeries(counts, types[i], exps[i], today, a + 1)
      invariant forall i :: j <= i < |types| ==> coverage[i] == CoverageSeries(counts, types[i], exps[i], today, a)
      invariant covered <==> Present(counts, d)
                             && exists i :: 0 <= i < j && Adequate(DayCount(counts, d, types[i]), exps[i])
    {
      var t := types[j];
      if entry.Some? {
        var actual := if t in entry.value then entry.value[t] else 0;
        assert actual == DayCount(counts, d, t);
        var pct := Percent(actual, exps[j]);
        coverage := coverage[j := coverage[j] + [pct]];
        AdequateIff(actual, exps[j]);
        if pct >= 30.0 {
          covered := true;
        } else {
          missing := missing[j := missing[j] + 1];
        }
      } else {
        missing := missing[j := missing[j] + 1];
        coverage := coverage[j := coverage[j] + [0.0]];
      }
      j := j + 1;
    }
  }

  // ---------------------------------------------------------------------------
  // Frequently missing types and average coverage
  // ---------------------------------------------------------------------------

  /** The types, in order, missed on more than `bound` days. */
  function MissedMoreThan(types: seq<string>, missing: seq<nat>, bound: int): (r: seq<string>)
    requires |types| == |missing|
    ensures |r| <= |types|
  {
    if types == [] then []
    else
      var n := |types| - 1;
      MissedMoreThan(types[..n], missing[..n], bound) + (if missing[n] > bound then [types[n]] else [])
  }

  lemma {:induction false} MissedMoreThanMembers(types: seq<string>, missing: seq<nat>, bound: int, t: string)
    requires |types| == |missing|
    ensures t in MissedMoreThan(types, missing, bound)
            <==> exists i :: 0 <= i < |types| && types[i] == t && missing[i] > bound
  {
    if types != [] {
      var n := |types| - 1;
      MissedMoreThanMembers(types[..n], missing[..n], bound, t);
      assert forall i :: 0 <= i < n ==> types[..n][i] == types[i] && missing[..n][i] == missing[i];
    }
  }

  /** The loop collecting the types missed on more than half of the
      `n` days (`missing_days > n // 2`). */
  method FrequentlyMissing(types: seq<string>, missing: seq<nat>, n: int) returns (r: seq<string>)
    requires |types| == |missing|
    ensures r == MissedMoreThan(types, missing, n / 2)
  {
    r := [];
    var i := 0;
    while i < |types|
      invariant 0 <= i <= |types|
      invariant r == MissedMoreThan(types[..i], missing[..i], n / 2)
    {
      assert types[..i + 1][..i] == types[..i] && missing[..i + 1][..i] == missing[..i];
      if missing[i] > n / 2 {
        r := r + [types[i]];
      }
      i := i + 1;
    }
    assert types[..i] == types && missing[..i] == missing;
  }

  function Sum(xs: seq<real>): real {
    if xs == [] then 0.0 else Sum(xs[..|xs| - 1]) + xs[|xs| - 1]
  }

  /** `sum(xs) / len(xs)`, or 0 for an empty list. */
  function Mean(xs: seq<real>): real {
    if xs == [] then 0.0 else Sum(xs) / |xs| as real
  }

  lemma {:induction false} SumNonNegative(xs: seq<real>)
    requires forall i :: 0 <= i < |xs| ==> xs[i] >= 0.0
    ensures Sum(xs) >= 0.0
  {
    if xs != [] {
      SumNonNegative(xs[..|xs| - 1]);
    }
  }

  /** The average coverage of a type is never negative. */
  lemma MeanCoverage(counts: Counts, t: string, e: nat, today: int, k: nat)
    requires e > 0
    ensures Mean(CoverageSeries(counts, t, e, today, k)) >= 0.0
  {
    var xs := CoverageSeries(counts, t, e, today, k);
    forall j | 0 <= j < k ensures xs[j] >= 0.0 {
      CoverageSeriesAt(counts, t, e, today, k, j);
    }
    SumNonNegative(xs);
    if xs != [] {
      QuotientNonNegative(Sum(xs), |xs| as real);
    }
  }

  /** Helper: the division step of `MeanCoverage`, kept apart so the solver
      sees it without the series around it. */
  lemma QuotientNonNegative(a: real, b: real)
    requires a >= 0.0 && b > 0.0
    ensures a / b >= 0.0
  {
  }

  /** The loop over types computing each one's average coverage. */
  method AverageCoverage(coverage: seq<seq<real>>) returns (avgs: seq<real>)
    ensures |avgs| == |coverage|
    ensures forall i :: 0 <= i < |coverage| ==> avgs[i] == Mean(coverage[i])
  {
    avgs := [];
    var i := 0;
    while i < |coverage|
      invariant 0 <= i <= |coverage|
      invariant |avgs| == i
      invariant forall j :: 0 <= j < i ==> avgs[j] == Mean(coverage[j])
    {
      avgs := avgs + [Mean(coverage[i])];
      i := i + 1;
    }
  }
}
