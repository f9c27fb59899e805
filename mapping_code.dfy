/** The text generator of the automatic divert-mapping script
    (`generate_divert_mapping`): hydrophone codes are grouped into arrays by
    their letter prefix, and a `LOCATION_MAPPING` table is written with SoG,
    Saanich, bracketed NC-DDS and fallback NC-DDS entries. */
module MappingCode {
  import opened Text
  import opened Dict
  import opened AutoDiscover

  /** `location_arrays`: a letter prefix to the codes of its array. */
  type Arrays = Assoc<string, seq<string>>

  // ---------------------------------------------------------------------------
  // Grouping codes into arrays
  // ---------------------------------------------------------------------------

  /** A non-empty run of `[A-Z]`. */
  predicate Letters(s: string) {
    s != [] && forall k :: 0 <= k < |s| ==> IsUpper(s[k])
  }

  /** `re.match(r'([A-Z]+)', code)`: the leading run of capital letters. */
  function BasePrefix(code: string): (r: Option<string>)
    ensures r.Some? <==> code != [] && IsUpper(code[0])
    ensures r.Some? ==> Letters(r.value) && StartsWith(code, r.value)
    ensures r.Some? && |r.value| < |code| ==> !IsUpper(code[|r.value|])
  {
    var n := UpperRun(code, 0);
    if n > 0 then Some(code[..n]) else None
  }

  /** What `(?:\.H\d+)?$` accepts after the letters: nothing, or `.H` and
      digits, in both cases optionally followed by the final newline that
      `$` lets through. The letter run is followed by a character that is
      not a capital letter, so backtracking into it never helps. */
  predicate ArraySuffix(rest: string) {
    var t := if rest != [] && rest[|rest| - 1] == '\n' then rest[..|rest| - 1] else rest;
    t == [] || (|t| >= 3 && t[0] == '.' && t[1] == 'H' && forall k :: 2 <= k < |t| ==> IsDigit(t[k]))
  }

  /** The array a code belongs to: `re.match(r'([A-Z]+)(?:\.H\d+)?$', code)`. */
  function ArrayBase(code: string): (r: Option<string>)
    ensures r.Some? ==> BasePrefix(code) == r
  {
    match BasePrefix(code)
    case Some(b) => if ArraySuffix(code[|b|..]) then Some(b) else None
    case None => None
  }

  /** Codes whose letter prefix is followed by digits belong to no array. */
  lemma EchoNotGrouped()
    ensures ArrayBase("ECHO3.H1").None?
  {
    var s := "ECHO3.H1";
    assert UpperRun(s, 4) == 0;
    assert UpperRun(s, 0) == 4 by {
      assert UpperRun(s, 3) == 1 + UpperRun(s, 4);
      assert UpperRun(s, 2) == 1 + UpperRun(s, 3);
      assert UpperRun(s, 1) == 1 + UpperRun(s, 2);
    }
    assert s[4..][0] == '3';
  }

  lemma NcNotGrouped()
    ensures ArrayBase("NC27.H3").None?
  {
    var s := "NC27.H3";
    assert UpperRun(s, 2) == 0;
    assert UpperRun(s, 0) == 2 by {
      assert UpperRun(s, 1) == 1 + UpperRun(s, 2);
    }
    assert s[2..][0] == '2';
  }

  /** A hydrophone code of an array: prefix, `.H` and its number. */
  lemma ArrayCodeGrouped()
    ensures ArrayBase("BACAX.H2") == Some("BACAX")
  {
    var s := "BACAX.H2";
    assert UpperRun(s, 5) == 0;
    assert UpperRun(s, 0) == 5 by {
      assert UpperRun(s, 4) == 1 + UpperRun(s, 5);
      assert UpperRun(s, 3) == 1 + UpperRun(s, 4);
      assert UpperRun(s, 2) == 1 + UpperRun(s, 3);
      assert UpperRun(s, 1) == 1 + UpperRun(s, 2);
    }
    assert s[..5] == "BACAX" by {
      assert forall k :: 0 <= k < 5 ==> s[..5][k] == "BACAX"[k];
    }
    var t := s[5..];
    assert |t| == 3 && t[0] == '.' && t[1] == 'H' && t[2] == '2';
    assert t[|t| - 1] != '\n';
    assert forall k :: 2 <= k < |t| ==> IsDigit(t[k]);
    assert ArraySuffix(t);
  }

  /** `location_arrays[k]` of a dictionary read without inserting: the empty
      list when `k` is absent. */
  function At(a: Arrays, k: string): seq<string> {
    match Lookup(a, k)
    case Some(v) => v
    case None => []
  }

  /** The arrays built by appending each code to its prefix's list. */
  function Groups(codes: seq<string>): (g: Arrays)
    ensures KeysUnique(g)
  {
    if codes == [] then []
    else
      var n := |codes| - 1;
      var g := Groups(codes[..n]);
      match ArrayBase(codes[n])
      case Some(b) => Put(g, b, At(g, b) + [codes[n]])
      case None => g
  }

  lemma {:induction false} GroupsMembers(codes: seq<string>, b: string)
    ensures forall c :: c in At(Groups(codes), b) <==> c in codes && ArrayBase(c) == Some(b)
    ensures HasKey(Groups(codes), b) ==> At(Groups(codes), b) != []
  {
    if codes != [] {
      var n := |codes| - 1;
      var g, last := Groups(codes[..n]), codes[n];
      GroupsMembers(codes[..n], b);
      assert forall c :: c in codes <==> c in codes[..n] || c == last by {
        assert codes == codes[..n] + [last];
      }
      match ArrayBase(last)
      case Some(lb) =>
        if lb == b {
          assert At(Groups(codes), b) == At(g, b) + [last];
        } else {
          assert At(Groups(codes), b) == At(g, b) && (HasKey(Groups(codes), b) <==> HasKey(g, b));
        }
      case None =>
    }
  }

  /** Each list sorted. The codes are distinct dictionary keys, so sorting
      them is sorting without duplicates. */
  function SortGroups(g: Arrays): (r: Arrays)
    ensures |r| == |g|
  {
    seq(|g|, i requires 0 <= i < |g| => (g[i].0, SortedDistinct(g[i].1)))
  }

  lemma {:induction false} SortGroupsLookup(g: Arrays, k: string)
    ensures HasKey(SortGroups(g), k) <==> HasKey(g, k)
    ensures At(SortGroups(g), k) == SortedDistinct(At(g, k))
  {
    assert forall i :: 0 <= i < |g| ==> SortGroups(g)[i].0 == g[i].0;
    if g != [] {
      SortGroupsLookup(g[1..], k);
      assert SortGroups(g)[1..] == SortGroups(g[1..]);
    }
  }

  /** `location_arrays` after grouping and sorting. */
  function LocationArrays(locs: Locations): Arrays {
    SortGroups(Groups(Keys(locs)))
  }

  /** The array of prefix `b` holds, sorted, exactly the discovered codes
      that match the array pattern with that prefix, and a prefix is a key
      only when its array is non-empty. */
  lemma ArraysShape(locs: Locations, b: string)
    ensures forall c :: c in At(LocationArrays(locs), b) <==> c in Keys(locs) && ArrayBase(c) == Some(b)
    ensures StrictlySorted(At(LocationArrays(locs), b))
    ensures HasKey(LocationArrays(locs), b) <==> At(LocationArrays(locs), b) != []
  {
    GroupsMembers(Keys(locs), b);
    SortGroupsLookup(Groups(Keys(locs)), b);
    if HasKey(Groups(Keys(locs)), b) {
      var c := At(Groups(Keys(locs)), b)[0];
      assert c in At(LocationArrays(locs), b);
    }
  }

  /** Reading `location_arrays[b]` from the `defaultdict`: an absent prefix
      is inserted with an empty list. No array changes. */
  function Touch(a: Arrays, b: string): (r: Arrays)
    ensures HasKey(r, b)
    ensures forall k :: At(r, k) == At(a, k)
    ensures forall k :: HasKey(a, k) ==> HasKey(r, k)
    ensures forall k :: k != b ==> (HasKey(r, k) <==> HasKey(a, k))
  {
    if HasKey(a, b) then a
    else
      var r := a + [(b, [])];
      assert r[|a|].0 == b;
      assert forall k :: Lookup(r, k) == if HasKey(a, k) then Lookup(a, k) else if b == k then Some([]) else None by {
        forall k ensures Lookup(r, k) == if HasKey(a, k) then Lookup(a, k) else if b == k then Some([]) else None {
          LookupAppend(a, (b, []), k);
        }
      }
      r
  }

  // ---------------------------------------------------------------------------
  // Python text of a list of codes
  // ---------------------------------------------------------------------------

  /** The body of a code's `repr`: a newline is written as a backslash and
      `n`. Array codes hold only letters, `.H`, digits and at most a final
      newline, so no other character needs escaping. */
  function Escaped(s: string): (r: string)
    ensures '\n' !in r
    ensures '\n' !in s ==> r == s
  {
    if s == [] then []
    else Escaped(s[..|s| - 1]) + (if s[|s| - 1] == '\n' then ['\\', 'n'] else [s[|s| - 1]])
  }

  function Quoted(s: string): string {
    ['\''] + Escaped(s) + ['\'']
  }

  /** `str(codes)`: `['A', 'B']`. */
  function Repr(codes: seq<string>): string {
    "[" + Join(seq(|codes|, i requires 0 <= i < |codes| => Quoted(codes[i])), ", ") + "]"
  }

  /** `str(n)` for a natural number. */
  function NatStr(n: nat): (r: string)
    ensures r != [] && forall k :: 0 <= k < |r| ==> IsDigit(r[k])
  {
    if n < 10 then [('0' as int + n) as char]
    else NatStr(n / 10) + [('0' as int + n % 10) as char]
  }

  // ---------------------------------------------------------------------------
  // SoG and Saanich entries
  // ---------------------------------------------------------------------------

  const Header: string :=
    "# Location mapping - maps email location names to hydrophone location codes\n"
    + "# Auto-generated from ONC API discovery\n"
    + "LOCATION_MAPPING = {\n"
    + "    # SoG DDS system locations"

  /** The SoG entry a location's array yields: East for an `ECHO` prefix,
      Delta for `CBCH` or a Cascadia name, Central for `PSGCH` or a Central
      name, in that order of precedence. */
  function SogLine(base: string, name: string, codes: seq<string>): Option<string> {
    var rest := Repr(codes) + ",  # " + name;
    if Contains(base, "ECHO") then Some("    'SoG_East': " + rest)
    else if Contains(base, "CBCH") || Contains(Upper(name), "CASCADIA") then Some("    'SoG_Delta': " + rest)
    else if Contains(base, "PSGCH") || Contains(Upper(name), "CENTRAL") then Some("    'SoG_Central': " + rest)
    else None
  }

  /** One SoG location: its prefix is read from the arrays (inserting it
      when absent) and a non-empty array yields its entry. */
  function SogStep(a: Arrays, loc: (string, string)): (Arrays, seq<string>) {
    match BasePrefix(loc.0)
    case None => (a, [])
    case Some(b) =>
      var a' := Touch(a, b);
      if At(a', b) == [] then (a', [])
      else match SogLine(b, loc.1, At(a', b))
        case Some(line) => (a', [line])
        case None => (a', [])
  }

  /** The SoG pass over the SoG locations, in order. */
  function SogPass(a: Arrays, locs: seq<(string, string)>): (Arrays, seq<string>) {
    if locs == [] then (a, [])
    else
      var n := |locs| - 1;
      var (a1, lines) := SogPass(a, locs[..n]);
      var (a2, more) := SogStep(a1, locs[n]);
      (a2, lines + more)
  }

  /** The entries in first-occurrence order, each once. */
  function Dedupe(xs: seq<string>): seq<string> {
    if xs == [] then []
    else
      var n := |xs| - 1;
      if xs[n] in xs[..n] then Dedupe(xs[..n]) else Dedupe(xs[..n]) + [xs[n]]
  }

  const SaanichHeader: string := "\n    \n    # Saanich DDS system locations"

  function SaanichLine(codes: seq<string>, name: string): string {
    "\n    'Saanich_Inlet': " + Repr(codes) + ",  # " + name
  }

  /** The Saanich pass: the first Saanich location whose array is non-empty
      yields the one entry, and the pass stops there; every prefix read
      before it is inserted. */
  function SaanichPass(a: Arrays, locs: seq<(string, string)>): (Arrays, string)
    decreases |locs|
  {
    if locs == [] then (a, "")
    else match BasePrefix(locs[0].0)
      case None => SaanichPass(a, locs[1..])
      case Some(b) =>
        var a' := Touch(a, b);
        if At(a', b) != [] then (a', SaanichLine(At(a', b), locs[0].1))
        else SaanichPass(a', locs[1..])
  }

  // ---------------------------------------------------------------------------
  // NC-DDS entries
  // ---------------------------------------------------------------------------

  /** An NC-DDS entry: its number, its email name and the prefixes of its
      arrays. The source's `None` prefix of entry 4 is falsy and contributes
      nothing, as an empty list does. */
  datatype NcEntry = NcEntry(num: nat, name: string, baseCodes: seq<string>)

  const NcMappings: seq<NcEntry> := [
    NcEntry(1, "Barkley Cnyn", ["BACNH", "BACUS"]),
    NcEntry(2, "ODP 1027", ["CBCH"]),
    NcEntry(3, "Endeavour", ["KEMFH"]),
    NcEntry(4, "ODP 889", []),
    NcEntry(5, "Folger Pass", ["FGPD"])
  ]

  /** The entries are numbered 1 to 5 in order. */
  lemma NcMappingsNumbered()
    ensures |NcMappings| == 5
    ensures forall i :: 0 <= i < |NcMappings| ==> NcMappings[i].num == i + 1
  {
  }

  const BracketHeader: string := "\n    \n    # NC-DDS system locations - with bracket format"
  const FallbackHeader: string := "\n    \n    # NC-DDS system locations - without bracket format (fallback)"
  const NeedComment: string := "  # Need to identify corresponding ONC location"

  /** The arrays of the entry's prefixes that are keys, concatenated. */
  function Hydrophones(a: Arrays, bases: seq<string>): seq<string> {
    if bases == [] then []
    else
      var n := |bases| - 1;
      Hydrophones(a, bases[..n]) + (if bases[n] != "" && HasKey(a, bases[n]) then At(a, bases[n]) else [])
  }

  /** The comment naming the first discovered location whose code starts
      with `b`, or nothing. */
  function NameComment(locs: Locations, b: string): string {
    if locs == [] then ""
    else if StartsWith(locs[0].0, b) then "  # " + locs[0].1
    else NameComment(locs[1..], b)
  }

  /** Only the first prefix that is a key is looked at. */
  function FirstComment(a: Arrays, bases: seq<string>, locs: Locations): string {
    if bases == [] then ""
    else if bases[0] != "" && HasKey(a, bases[0]) then NameComment(locs, bases[0])
    else FirstComment(a, bases[1..], locs)
  }

  /** A discovered ODP location is taken for an entry when both names
      carry the same site number, 1027 or 889. */
  predicate OdpMatch(entryName: string, locName: string) {
    || (Contains(locName, "1027") && Contains(entryName, "1027"))
    || (Contains(locName, "889") && Contains(entryName, "889"))
  }

  /** One ODP location: a matching one whose prefix has a non-empty array
      replaces the hydrophones. */
  function OdpStep(a: Arrays, h: seq<string>, entryName: string, loc: (string, string)): (Arrays, seq<string>) {
    if !OdpMatch(entryName, loc.1) then (a, h)
    else match BasePrefix(loc.0)
      case None => (a, h)
      case Some(b) =>
        var a' := Touch(a, b);
        (a', if At(a', b) != [] then At(a', b) else h)
  }

  function OdpPass(a: Arrays, h: seq<string>, entryName: string, odps: seq<(string, string)>): (Arrays, seq<string>) {
    if odps == [] then (a, h)
    else
      var n := |odps| - 1;
      var (a1, h1) := OdpPass(a, h, entryName, odps[..n]);
      OdpStep(a1, h1, entryName, odps[n])
  }

  function EntryText(key: string, h: seq<string>, comment: string): string {
    "\n    '" + key + "': " + Repr(h) + "," + comment
  }

  function BracketLabel(e: NcEntry): string {
    "[" + NatStr(e.num) + "] " + e.name
  }

  /** A bracketed entry. An ODP entry takes its hydrophones from the
      matching ODP locations, and its comment is always the placeholder:
      the loop has no `break`, so its `else` clause always runs. */
  function BracketEntry(a: Arrays, e: NcEntry, odps: seq<(string, string)>, locs: Locations): (Arrays, string) {
    var h := Hydrophones(a, e.baseCodes);
    if IsOdpEntry(e) then
      var (a', h') := OdpPass(a, h, e.name, odps);
      (a', EntryText(BracketLabel(e), h', NeedComment))
    else (a, EntryText(BracketLabel(e), h, FirstComment(a, e.baseCodes, locs)))
  }

  function BracketEntries(a: Arrays, es: seq<NcEntry>, odps: seq<(string, string)>, locs: Locations): (Arrays, seq<string>) {
    if es == [] then (a, [])
    else
      var n := |es| - 1;
      var (a1, texts) := BracketEntries(a, es[..n], odps, locs);
      var (a2, t) := BracketEntry(a1, es[n], odps, locs);
      (a2, texts + [t])
  }

  function FallbackEntry(a: Arrays, e: NcEntry, locs: Locations): string {
    EntryText(e.name, Hydrophones(a, e.baseCodes), FirstComment(a, e.baseCodes, locs))
  }

  function Concat(ts: seq<string>): string {
    if ts == [] then "" else Concat(ts[..|ts| - 1]) + ts[|ts| - 1]
  }

  // ---------------------------------------------------------------------------
  // The whole table
  // ---------------------------------------------------------------------------

  /** The generated pieces: the SoG lines before deduplication, the
      Saanich entry, and the bracketed and fallback NC-DDS entries. */
  datatype Sections = Sections(sog: seq<string>, saanich: string, bracket: seq<string>, fallback: seq<string>)

  function MappingSections(locs: Locations, cat: Categorized): Sections {
    var a0 := LocationArrays(locs);
    var (a1, sog) := SogPass(a0, cat.sog);
    var (a2, saanich) := SaanichPass(a1, cat.saanich);
    var (a3, bracket) := BracketEntries(a2, NcMappings, cat.odp, locs);
    Sections(sog, saanich, bracket, MapSeq(FallbackFor(a3, locs), NcMappings))
  }

  /** The sections appended in turn, as the script does. */
  function Render(s: Sections): string {
    Header + "\n" + Join(Dedupe(s.sog), "\n")
    + SaanichHeader + s.saanich
    + BracketHeader + Concat(s.bracket)
    + FallbackHeader + Concat(s.fallback)
    + "\n}"
  }

  /** `generate_divert_mapping`; its clue argument is not used. */
  function MappingText(locs: Locations, cat: Categorized): string {
    Render(MappingSections(locs, cat))
  }

  // ---------------------------------------------------------------------------
  // Properties of the generated text
  // ---------------------------------------------------------------------------

  /** Each element of `d` is seen in `xs` before every later element of
      `d` is. */
  ghost predicate FirstSeenOrder(xs: seq<string>, d: seq<string>) {
    forall i, j :: 0 <= i < j < |d| ==> exists p :: 0 <= p < |xs| && xs[p] == d[i] && d[j] !in xs[..p + 1]
  }

  /** Deduplication keeps exactly the entries of `xs`. */
  lemma {:induction false} DedupeMembers(xs: seq<string>)
    ensures forall x :: x in Dedupe(xs) <==> x in xs
  {
    if xs != [] {
      var n := |xs| - 1;
      DedupeMembers(xs[..n]);
      assert xs == xs[..n] + [xs[n]];
    }
  }

  /** Deduplication keeps each entry once. */
  lemma {:induction false} DedupeDistinct(xs: seq<string>)
    ensures forall i, j :: 0 <= i < j < |Dedupe(xs)| ==> Dedupe(xs)[i] != Dedupe(xs)[j]
  {
    if xs != [] {
      var n := |xs| - 1;
      DedupeDistinct(xs[..n]);
      DedupeMembers(xs[..n]);
      var d, di := Dedupe(xs), Dedupe(xs[..n]);
      if xs[n] !in xs[..n] {
        assert d == di + [xs[n]];
        assert xs[n] !in di;
        forall i, j | 0 <= i < j < |d| ensures d[i] != d[j] {
          if j == |di| {
            assert d[i] == di[i];
            assert di[i] in di;
          } else {
            assert d[i] == di[i] && d[j] == di[j];
          }
        }
      }
    }
  }

  /** Deduplication keeps the entries in the order of their first
      occurrence. */
  lemma {:induction false} DedupeOrder(xs: seq<string>)
    ensures FirstSeenOrder(xs, Dedupe(xs))
  {
    if xs != [] {
      var n := |xs| - 1;
      var init := xs[..n];
      DedupeOrder(init);
      DedupeMembers(init);
      var d, di := Dedupe(xs), Dedupe(init);
      if xs[n] !in init {
        assert d == di + [xs[n]];
      } else {
        assert d == di;
      }
      forall i, j | 0 <= i < j < |d|
        ensures exists p :: 0 <= p < |xs| && xs[p] == d[i] && d[j] !in xs[..p + 1]
      {
        assert d[i] == di[i];
        if j < |di| {
          assert d[j] == di[j];
          var p :| 0 <= p < |init| && init[p] == di[i] && di[j] !in init[..p + 1];
          assert xs[..p + 1] == init[..p + 1];
        } else {
          assert d[j] == xs[n] && xs[n] !in init;
          assert di[i] in init;
          var p :| 0 <= p < |init| && init[p] == di[i];
          assert xs[..p + 1] == init[..p + 1];
          assert xs[n] !in xs[..p + 1];
        }
      }
      assert FirstSeenOrder(xs, d);
    }
  }

  predicate EndsWith(s: string, p: string) {
    |p| <= |s| && s[|s| - |p|..] == p
  }

  /** The arrays after a pass agree with the arrays before it on every
      prefix, and keep every key. */
  ghost predicate Keeps(a: Arrays, r: Arrays) {
    (forall k :: At(r, k) == At(a, k)) && (forall k :: HasKey(a, k) ==> HasKey(r, k))
  }

  /** Touching the same arrays never changes the hydrophones an entry
      lists. */
  lemma {:induction false} HydrophonesKept(a: Arrays, r: Arrays, bases: seq<string>)
    requires Keeps(a, r)
    ensures Hydrophones(r, bases) == Hydrophones(a, bases)
  {
    if bases != [] {
      HydrophonesKept(a, r, bases[..|bases| - 1]);
      var b := bases[|bases| - 1];
      assert !HasKey(a, b) ==> At(a, b) == [];
      assert !HasKey(r, b) ==> At(r, b) == [];
    }
  }

  /** An entry lists exactly the codes of its prefixes' arrays. */
  lemma {:induction false} HydrophonesMembers(a: Arrays, bases: seq<string>)
    ensures forall c :: c in Hydrophones(a, bases) <==> exists k :: 0 <= k < |bases| && bases[k] != "" && c in At(a, bases[k])
  {
    if bases != [] {
      var n := |bases| - 1;
      HydrophonesMembers(a, bases[..n]);
      assert !HasKey(a, bases[n]) ==> At(a, bases[n]) == [];
      forall c | c in Hydrophones(a, bases)
        ensures exists k :: 0 <= k < |bases| && bases[k] != "" && c in At(a, bases[k])
      {
        if c in Hydrophones(a, bases[..n]) {
          var k :| 0 <= k < n && bases[..n][k] != "" && c in At(a, bases[..n][k]);
          assert bases[k] == bases[..n][k];
        }
      }
      forall c, k | 0 <= k < |bases| && bases[k] != "" && c in At(a, bases[k])
        ensures c in Hydrophones(a, bases)
      {
        if k < n {
          assert bases[..n][k] == bases[k];
        }
      }
    }
  }

  /** With the discovered arrays, an NC-DDS entry lists exactly the
      discovered array codes whose prefix is one of its prefixes. */
  lemma EntryHydrophones(locs: Locations, bases: seq<string>)
    ensures forall c :: c in Hydrophones(LocationArrays(locs), bases) <==>
              c in Keys(locs) && ArrayBase(c).Some? && ArrayBase(c).value != "" && ArrayBase(c).value in bases
  {
    HydrophonesMembers(LocationArrays(locs), bases);
    forall c ensures c in Hydrophones(LocationArrays(locs), bases) <==>
                       c in Keys(locs) && ArrayBase(c).Some? && ArrayBase(c).value != "" && ArrayBase(c).value in bases
    {
      if c in Hydrophones(LocationArrays(locs), bases) {
        var k :| 0 <= k < |bases| && bases[k] != "" && c in At(LocationArrays(locs), bases[k]);
        ArraysShape(locs, bases[k]);
      }
      if c in Keys(locs) && ArrayBase(c).Some? && ArrayBase(c).value != "" && ArrayBase(c).value in bases {
        var k :| 0 <= k < |bases| && bases[k] == ArrayBase(c).value;
        ArraysShape(locs, bases[k]);
      }
    }
  }

  /** The array of a location's prefix; empty when it has no prefix. */
  function ArrayOf(a: Arrays, code: string): seq<string> {
    match BasePrefix(code)
    case Some(b) => At(a, b)
    case None => []
  }

  /** Whether a location's prefix has a non-empty array. */
  predicate HasArray(a: Arrays, code: string) {
    ArrayOf(a, code) != []
  }

  /** `HasArray` on the arrays `a`, as a predicate on locations. */
  function WithArray(a: Arrays): ((string, string)) -> bool {
    (loc: (string, string)) => HasArray(a, loc.0)
  }

  /** A matching ODP location with an array, as a predicate on locations. */
  function OdpCandidate(a: Arrays, entryName: string): ((string, string)) -> bool {
    (loc: (string, string)) => OdpMatch(entryName, loc.1) && HasArray(a, loc.0)
  }

  /** The SoG pass keeps the arrays, yields at most one entry per location,
      and every entry is an East, Delta or Central one. */
  lemma {:induction false} SogPassShape(a: Arrays, locs: seq<(string, string)>)
    ensures Keeps(a, SogPass(a, locs).0)
    ensures |SogPass(a, locs).1| <= |locs|
    ensures forall line :: line in SogPass(a, locs).1 ==>
              StartsWith(line, "    'SoG_East': ") || StartsWith(line, "    'SoG_Delta': ")
              || StartsWith(line, "    'SoG_Central': ")
  {
    if locs != [] {
      var n := |locs| - 1;
      SogPassShape(a, locs[..n]);
    }
  }

  /** The Saanich pass keeps the arrays. */
  lemma {:induction false} SaanichPassKeeps(a: Arrays, locs: seq<(string, string)>)
    decreases |locs|
    ensures Keeps(a, SaanichPass(a, locs).0)
  {
    if locs != [] {
      var a' := if BasePrefix(locs[0].0).Some? then Touch(a, BasePrefix(locs[0].0).value) else a;
      SaanichPassKeeps(a', locs[1..]);
    }
  }

  /** The Saanich entry is that of the first Saanich location whose prefix
      has an array (`FirstIndexShape` says which that is), and there is
      none when no such location exists. */
  lemma {:induction false} SaanichPassEntry(a: Arrays, locs: seq<(string, string)>)
    decreases |locs|
    ensures SaanichPass(a, locs).1 ==
              match FirstIndex(locs, WithArray(a))
              case None => ""
              case Some(i) => SaanichLine(ArrayOf(a, locs[i].0), locs[i].1)
  {
    if locs != [] {
      var a' := if BasePrefix(locs[0].0).Some? then Touch(a, BasePrefix(locs[0].0).value) else a;
      SaanichPassEntry(a', locs[1..]);
      assert forall x :: WithArray(a')(x) == WithArray(a)(x);
      FirstIndexExt(locs[1..], WithArray(a'), WithArray(a));
      assert WithArray(a)(locs[0]) == HasArray(a, locs[0].0);
      if !HasArray(a, locs[0].0) {
        assert SaanichPass(a, locs) == SaanichPass(a', locs[1..]);
        match FirstIndex(locs[1..], WithArray(a))
        case Some(i) => assert locs[1..][i] == locs[i + 1];
        case None =>
      }
    }
  }

  /** The ODP pass keeps the arrays. */
  lemma {:induction false} OdpPassKeeps(a: Arrays, h: seq<string>, entryName: string, odps: seq<(string, string)>)
    ensures Keeps(a, OdpPass(a, h, entryName, odps).0)
  {
    if odps != [] {
      OdpPassKeeps(a, h, entryName, odps[..|odps| - 1]);
    }
  }

  /** An ODP entry lists the array of the last ODP location that matches
      it and has an array (`LastIndexShape` says which that is), and keeps
      its own hydrophones when there is none. */
  lemma {:induction false} OdpPassHydrophones(a: Arrays, h: seq<string>, entryName: string, odps: seq<(string, string)>)
    ensures OdpPass(a, h, entryName, odps).1 ==
              match LastIndex(odps, OdpCandidate(a, entryName))
              case None => h
              case Some(i) => ArrayOf(a, odps[i].0)
  {
    if odps != [] {
      var n := |odps| - 1;
      OdpPassHydrophones(a, h, entryName, odps[..n]);
      OdpPassKeeps(a, h, entryName, odps[..n]);
      var a1 := OdpPass(a, h, entryName, odps[..n]).0;
      assert HasArray(a1, odps[n].0) == HasArray(a, odps[n].0);
      assert ArrayOf(a1, odps[n].0) == ArrayOf(a, odps[n].0);
      assert OdpCandidate(a, entryName)(odps[n]) == (OdpMatch(entryName, odps[n].1) && HasArray(a, odps[n].0));
      match LastIndex(odps[..n], OdpCandidate(a, entryName))
      case Some(i) => assert odps[..n][i] == odps[i];
      case None =>
    }
  }

  /** The hydrophones of an ODP entry: those of the last matching ODP
      location with an array, else the entry's own. */
  function OdpHydrophones(a: Arrays, e: NcEntry, odps: seq<(string, string)>): seq<string> {
    match LastIndex(odps, OdpCandidate(a, e.name))
    case None => Hydrophones(a, e.baseCodes)
    case Some(i) => ArrayOf(a, odps[i].0)
  }

  lemma EntryTextPrefix(key: string, h: seq<string>, comment: string)
    ensures StartsWith(EntryText(key, h, comment), EntryText(key, h, ""))
  {
    assert EntryText(key, h, comment) == EntryText(key, h, "") + comment;
  }

  /** Two arrays that agree on every prefix agree on what a location has. */
  lemma KeptArrays(a: Arrays, r: Arrays, entryName: string)
    requires forall k :: At(r, k) == At(a, k)
    ensures forall code :: ArrayOf(r, code) == ArrayOf(a, code)
    ensures forall x :: WithArray(r)(x) == WithArray(a)(x)
    ensures forall x :: OdpCandidate(r, entryName)(x) == OdpCandidate(a, entryName)(x)
  {
  }

  predicate IsOdpEntry(e: NcEntry) {
    Contains(e.name, "ODP")
  }

  /** What a bracketed entry says, on the arrays `a`: an ODP entry lists
      the ODP hydrophones and carries the placeholder comment; any other
      entry lists its prefixes' arrays, and its comment follows. */
  predicate BracketEntryOk(a: Arrays, e: NcEntry, odps: seq<(string, string)>, text: string) {
    && (IsOdpEntry(e) ==> text == EntryText(BracketLabel(e), OdpHydrophones(a, e, odps), NeedComment))
    && (!IsOdpEntry(e) ==> StartsWith(text, EntryText(BracketLabel(e), Hydrophones(a, e.baseCodes), "")))
  }

  /** One bracketed entry, written on arrays that agree with `a`. */
  lemma BracketEntryShape(a: Arrays, a1: Arrays, e: NcEntry, odps: seq<(string, string)>, locs: Locations)
    requires Keeps(a, a1)
    ensures Keeps(a, BracketEntry(a1, e, odps, locs).0)
    ensures BracketEntryOk(a, e, odps, BracketEntry(a1, e, odps, locs).1)
  {
    HydrophonesKept(a, a1, e.baseCodes);
    var h := Hydrophones(a1, e.baseCodes);
    if IsOdpEntry(e) {
      OdpPassHydrophones(a1, h, e.name, odps);
      OdpPassKeeps(a1, h, e.name, odps);
      KeptArrays(a, a1, e.name);
      LastIndexExt(odps, OdpCandidate(a1, e.name), OdpCandidate(a, e.name));
    } else {
      EntryTextPrefix(BracketLabel(e), h, FirstComment(a1, e.baseCodes, locs));
    }
  }

  /** The bracketed entries come one per NC-DDS entry, in order, each as
      `BracketEntryOk` says, and keep the arrays. */
  lemma {:induction false} BracketEntriesShape(a: Arrays, es: seq<NcEntry>, odps: seq<(string, string)>, locs: Locations)
    ensures Keeps(a, BracketEntries(a, es, odps, locs).0)
    ensures |BracketEntries(a, es, odps, locs).1| == |es|
    ensures forall i :: 0 <= i < |es| ==> BracketEntryOk(a, es[i], odps, BracketEntries(a, es, odps, locs).1[i])
  {
    if es != [] {
      var n := |es| - 1;
      BracketEntriesShape(a, es[..n], odps, locs);
      var (a1, texts) := BracketEntries(a, es[..n], odps, locs);
      BracketEntryShape(a, a1, es[n], odps, locs);
      assert forall i :: 0 <= i < n ==> es[..n][i] == es[i];
    }
  }

  /** The arrays each section of the table is written on. */
  function ArraysAfterSog(locs: Locations, cat: Categorized): Arrays {
    SogPass(LocationArrays(locs), cat.sog).0
  }

  function ArraysAfterSaanich(locs: Locations, cat: Categorized): Arrays {
    SaanichPass(ArraysAfterSog(locs, cat), cat.saanich).0
  }

  function ArraysAfterBracket(locs: Locations, cat: Categorized): Arrays {
    BracketEntries(ArraysAfterSaanich(locs, cat), NcMappings, cat.odp, locs).0
  }

  /** The passes only insert empty arrays: every section sees the
      discovered arrays. */
  lemma PassesKeep(locs: Locations, cat: Categorized)
    ensures Keeps(LocationArrays(locs), ArraysAfterSog(locs, cat))
    ensures Keeps(LocationArrays(locs), ArraysAfterSaanich(locs, cat))
    ensures Keeps(LocationArrays(locs), ArraysAfterBracket(locs, cat))
  {
    SogPassShape(LocationArrays(locs), cat.sog);
    SaanichPassKeeps(ArraysAfterSog(locs, cat), cat.saanich);
    BracketEntriesShape(ArraysAfterSaanich(locs, cat), NcMappings, cat.odp, locs);
  }

  /** The Saanich section is the entry of the first Saanich location whose
      prefix has a discovered array, or nothing. */
  lemma SaanichSection(locs: Locations, cat: Categorized)
    ensures var a := LocationArrays(locs);
            MappingSections(locs, cat).saanich ==
              match FirstIndex(cat.saanich, WithArray(a))
              case None => ""
              case Some(i) => SaanichLine(ArrayOf(a, cat.saanich[i].0), cat.saanich[i].1)
  {
    var a0, a1 := LocationArrays(locs), ArraysAfterSog(locs, cat);
    PassesKeep(locs, cat);
    SaanichPassEntry(a1, cat.saanich);
    KeptArrays(a0, a1, "");
    FirstIndexExt(cat.saanich, WithArray(a1), WithArray(a0));
  }

  /** Five bracketed entries in the order 1 to 5, each as
      `BracketEntryOk` says on the discovered arrays. */
  lemma BracketSection(locs: Locations, cat: Categorized)
    ensures |MappingSections(locs, cat).bracket| == |NcMappings|
    ensures forall i :: 0 <= i < |NcMappings| ==>
              BracketEntryOk(LocationArrays(locs), NcMappings[i], cat.odp, MappingSections(locs, cat).bracket[i])
  {
    var a0, a2 := LocationArrays(locs), ArraysAfterSaanich(locs, cat);
    PassesKeep(locs, cat);
    BracketEntriesShape(a2, NcMappings, cat.odp, locs);
    forall i | 0 <= i < |NcMappings|
      ensures BracketEntryOk(a0, NcMappings[i], cat.odp, MappingSections(locs, cat).bracket[i])
    {
      var e := NcMappings[i];
      HydrophonesKept(a0, a2, e.baseCodes);
      KeptArrays(a0, a2, e.name);
      LastIndexExt(cat.odp, OdpCandidate(a2, e.name), OdpCandidate(a0, e.name));
    }
  }

  /** Five fallback entries, each listing its prefixes' discovered arrays. */
  lemma FallbackSection(locs: Locations, cat: Categorized)
    ensures |MappingSections(locs, cat).fallback| == |NcMappings|
    ensures forall i :: 0 <= i < |NcMappings| ==>
              StartsWith(MappingSections(locs, cat).fallback[i],
                         EntryText(NcMappings[i].name, Hydrophones(LocationArrays(locs), NcMappings[i].baseCodes), ""))
  {
    var a0, a3 := LocationArrays(locs), ArraysAfterBracket(locs, cat);
    PassesKeep(locs, cat);
    MapSeqAt(FallbackFor(a3, locs), NcMappings);
    forall i | 0 <= i < |NcMappings|
      ensures StartsWith(MappingSections(locs, cat).fallback[i],
                         EntryText(NcMappings[i].name, Hydrophones(a0, NcMappings[i].baseCodes), ""))
    {
      var e := NcMappings[i];
      HydrophonesKept(a0, a3, e.baseCodes);
      EntryTextPrefix(e.name, Hydrophones(a3, e.baseCodes), FirstComment(a3, e.baseCodes, locs));
    }
  }

  /** The table opens with the header and closes with `}`. */
  lemma MappingFrame(locs: Locations, cat: Categorized)
    ensures StartsWith(MappingText(locs, cat), Header)
    ensures EndsWith(MappingText(locs, cat), "\n}")
  {
    RenderFrame(MappingSections(locs, cat));
  }

  lemma RenderFrame(s: Sections)
    ensures StartsWith(Render(s), Header)
    ensures EndsWith(Render(s), "\n}")
  {
    var t1 := Header + "\n";
    PrefixOfAppend(Header, "\n");
    var t2 := t1 + Join(Dedupe(s.sog), "\n");
    StartsWithAppend(t1, Join(Dedupe(s.sog), "\n"), Header);
    var t3 := t2 + SaanichHeader;
    StartsWithAppend(t2, SaanichHeader, Header);
    var t4 := t3 + s.saanich;
    StartsWithAppend(t3, s.saanich, Header);
    var t5 := t4 + BracketHeader;
    StartsWithAppend(t4, BracketHeader, Header);
    var t6 := t5 + Concat(s.bracket);
    StartsWithAppend(t5, Concat(s.bracket), Header);
    var t7 := t6 + FallbackHeader;
    StartsWithAppend(t6, FallbackHeader, Header);
    var t8 := t7 + Concat(s.fallback);
    StartsWithAppend(t7, Concat(s.fallback), Header);
    assert Render(s) == t8 + "\n}";
    StartsWithAppend(t8, "\n}", Header);
    SuffixOfAppend(t8, "\n}");
  }

  lemma PrefixOfAppend(p: string, x: string)
    ensures StartsWith(p + x, p)
  {
    assert (p + x)[..|p|] == p;
  }

  lemma StartsWithAppend(x: string, y: string, p: string)
    requires StartsWith(x, p)
    ensures StartsWith(x + y, p)
  {
    assert (x + y)[..|p|] == x[..|p|];
  }

  lemma SuffixOfAppend(x: string, p: string)
    ensures EndsWith(x + p, p)
  {
    assert (x + p)[|x + p| - |p|..] == p;
  }

  // ---------------------------------------------------------------------------
  // The generator as the script runs it
  // ---------------------------------------------------------------------------

  /** `generate_divert_mapping`: the arrays are built, then each section is
      appended to the text in turn. The clue dictionary it is handed is not
      used. */
  method GenerateDivertMapping(locs: Locations, cat: Categorized) returns (code: string)
    ensures code == MappingText(locs, cat)
  {
    var arrays := BuildLocationArrays(locs);
    ghost var a0 := arrays;
    code := Header;
    var sog;
    arrays, sog := SogMappings(arrays, cat.sog);
    ghost var a1 := arrays;
    var unique := DedupeLines(sog);
    code := code + "\n" + Join(unique, "\n");
    code := code + SaanichHeader;
    var saanich;
    arrays, saanich := SaanichMapping(arrays, cat.saanich);
    code := code + saanich;
    code := code + BracketHeader;
    ghost var a2 := arrays;
    var bracket;
    arrays, bracket := BracketMappings(arrays, NcMappings, cat.odp, locs);
    code := code + bracket;
    code := code + FallbackHeader;
    var fallback := FallbackMappings(arrays, NcMappings, locs);
    code := code + fallback;
    code := code + "\n}";
    assert MappingSections(locs, cat)
           == Sections(sog, saanich, BracketEntries(a2, NcMappings, cat.odp, locs).1,
                       MapSeq(FallbackFor(arrays, locs), NcMappings));
  }

  /** The grouping loop, then the sorting loop. */
  method BuildLocationArrays(locs: Locations) returns (arrays: Arrays)
    ensures arrays == LocationArrays(locs)
  {
    arrays := GroupCodes(Keys(locs));
    arrays := SortArrays(arrays);
  }

  /** Each code that matches the array pattern is appended to its
      prefix's list. */
  method GroupCodes(keys: seq<string>) returns (arrays: Arrays)
    ensures arrays == Groups(keys)
  {
    arrays := [];
    var i := 0;
    while i < |keys|
      invariant 0 <= i <= |keys|
      invariant arrays == Groups(keys[..i])
    {
      assert keys[..i + 1][..i] == keys[..i];
      var base := ArrayBase(keys[i]);
      if base.Some? {
        arrays := Put(arrays, base.value, At(arrays, base.value) + [keys[i]]);
      }
      i := i + 1;
    }
    assert keys[..i] == keys;
  }

  /** Each list is sorted where it stands. */
  method SortArrays(g: Arrays) returns (arrays: Arrays)
    ensures arrays == SortGroups(g)
  {
    arrays := g;
    var j := 0;
    while j < |arrays|
      invariant 0 <= j <= |arrays| == |g|
      invariant arrays == SortGroups(g)[..j] + g[j..]
    {
      arrays := arrays[j := (arrays[j].0, SortedDistinct(arrays[j].1))];
      j := j + 1;
    }
  }

  /** The SoG loop: each location reads its prefix's array and may add an
      entry. */
  method SogMappings(a: Arrays, locs: seq<(string, string)>) returns (arrays: Arrays, lines: seq<string>)
    ensures (arrays, lines) == SogPass(a, locs)
  {
    arrays, lines := a, [];
    var i := 0;
    while i < |locs|
      invariant 0 <= i <= |locs|
      invariant (arrays, lines) == SogPass(a, locs[..i])
    {
      SogPassStep(a, locs, i);
      var more;
      arrays, more := SogMapping(arrays, locs[i]);
      lines := lines + more;
      i := i + 1;
    }
    assert locs[..i] == locs;
  }

  lemma SogPassStep(a: Arrays, locs: seq<(string, string)>, i: nat)
    requires i < |locs|
    ensures var (a1, lines) := SogPass(a, locs[..i]);
            var (a2, more) := SogStep(a1, locs[i]);
            SogPass(a, locs[..i + 1]) == (a2, lines + more)
  {
    assert locs[..i + 1][..i] == locs[..i];
  }

  /** One SoG location: its line, if its base prefix has arrays. */
  method SogMapping(a: Arrays, loc: (string, string)) returns (arrays: Arrays, lines: seq<string>)
    ensures (arrays, lines) == SogStep(a, loc)
  {
    arrays, lines := a, [];
    var (code, name) := loc;
    var base := BasePrefix(code);
    if base.Some? {
      var b := base.value;
      arrays := Touch(arrays, b);
      if At(arrays, b) != [] {
        var line := SogLine(b, name, At(arrays, b));
        if line.Some? {
          lines := [line.value];
        }
      }
    }
  }


  /** The duplicate filter with its `seen` set. */
  method DedupeLines(lines: seq<string>) returns (unique: seq<string>)
    ensures unique == Dedupe(lines)
  {
    unique := [];
    var seen: set<string> := {};
    var i := 0;
    while i < |lines|
      invariant 0 <= i <= |lines|
      invariant unique == Dedupe(lines[..i])
      invariant forall x :: x in seen <==> x in lines[..i]
    {
      assert lines[..i + 1][..i] == lines[..i];
      assert lines[..i + 1] == lines[..i] + [lines[i]];
      if lines[i] !in seen {
        unique := unique + [lines[i]];
        seen := seen + {lines[i]};
      }
      i := i + 1;
    }
    assert lines[..i] == lines;
  }

  /** The Saanich loop, left at the first entry. */
  method SaanichMapping(a: Arrays, locs: seq<(string, string)>) returns (arrays: Arrays, text: string)
    ensures (arrays, text) == SaanichPass(a, locs)
  {
    arrays, text := a, "";
    var i := 0;
    while i < |locs|
      invariant 0 <= i <= |locs|
      invariant SaanichPass(a, locs) == SaanichPass(arrays, locs[i..])
      invariant text == ""
    {
      assert locs[i..][1..] == locs[i + 1..];
      var base := BasePrefix(locs[i].0);
      if base.Some? {
        var b := base.value;
        arrays := Touch(arrays, b);
        if At(arrays, b) != [] {
          text := SaanichLine(At(arrays, b), locs[i].1);
          return;
        }
      }
      i := i + 1;
    }
  }

  /** The bracketed entries, 1 to 5. */
  method BracketMappings(a: Arrays, es: seq<NcEntry>, odps: seq<(string, string)>, locs: Locations)
    returns (arrays: Arrays, text: string)
    ensures arrays == BracketEntries(a, es, odps, locs).0
    ensures text == Concat(BracketEntries(a, es, odps, locs).1)
  {
    arrays, text := a, "";
    ghost var texts := [];
    var i := 0;
    while i < |es|
      invariant 0 <= i <= |es|
      invariant (arrays, texts) == BracketEntries(a, es[..i], odps, locs)
      invariant text == Concat(texts)
    {
      assert es[..i + 1][..i] == es[..i];
      var entry;
      arrays, entry := BracketMapping(arrays, es[i], odps, locs);
      ConcatSnoc(texts, entry);
      text := text + entry;
      texts := texts + [entry];
      i := i + 1;
    }
    assert es[..i] == es;
  }

  lemma ConcatSnoc(ts: seq<string>, t: string)
    ensures Concat(ts + [t]) == Concat(ts) + t
  {
    assert (ts + [t])[..|ts|] == ts;
  }


  /** One bracketed entry. */
  method BracketMapping(a: Arrays, e: NcEntry, odps: seq<(string, string)>, locs: Locations)
    returns (arrays: Arrays, text: string)
    ensures (arrays, text) == BracketEntry(a, e, odps, locs)
  {
    arrays := a;
    var hydrophones := HydrophonesOf(arrays, e.baseCodes);
    var comment;
    if Contains(e.name, "ODP") {
      arrays, hydrophones := OdpOverride(arrays, hydrophones, e.name, odps);
      comment := NeedComment;
    } else {
      comment := CommentFor(arrays, e.baseCodes, locs);
    }
    text := EntryText(BracketLabel(e), hydrophones, comment);
  }

  /** The fallback entries, 1 to 5, on the arrays as the earlier sections
      left them. */
  method FallbackMappings(a: Arrays, es: seq<NcEntry>, locs: Locations) returns (text: string)
    ensures text == Concat(MapSeq(FallbackFor(a, locs), es))
  {
    text := "";
    ghost var texts := [];
    var i := 0;
    while i < |es|
      invariant 0 <= i <= |es|
      invariant texts == MapSeq(FallbackFor(a, locs), es[..i])
      invariant text == Concat(texts)
    {
      assert es[..i + 1][..i] == es[..i];
      var e := es[i];
      var hydrophones := HydrophonesOf(a, e.baseCodes);
      var comment := CommentFor(a, e.baseCodes, locs);
      var entry := EntryText(e.name, hydrophones, comment);
      assert entry == FallbackFor(a, locs)(es[i]);
      ConcatSnoc(texts, entry);
      text := text + entry;
      texts := texts + [entry];
      i := i + 1;
    }
    assert es[..i] == es;
  }

  function FallbackFor(a: Arrays, locs: Locations): NcEntry -> string {
    (e: NcEntry) => FallbackEntry(a, e, locs)
  }



  /** The arrays of an entry's prefixes that are keys. */
  method HydrophonesOf(a: Arrays, bases: seq<string>) returns (hydrophones: seq<string>)
    ensures hydrophones == Hydrophones(a, bases)
  {
    hydrophones := [];
    var i := 0;
    while i < |bases|
      invariant 0 <= i <= |bases|
      invariant hydrophones == Hydrophones(a, bases[..i])
    {
      assert bases[..i + 1][..i] == bases[..i];
      if bases[i] != "" && HasKey(a, bases[i]) {
        hydrophones := hydrophones + At(a, bases[i]);
      }
      i := i + 1;
    }
    assert bases[..i] == bases;
  }

  /** The loop over the ODP locations. */
  method OdpOverride(a: Arrays, h: seq<string>, entryName: string, odps: seq<(string, string)>)
    returns (arrays: Arrays, hydrophones: seq<string>)
    ensures (arrays, hydrophones) == OdpPass(a, h, entryName, odps)
  {
    arrays, hydrophones := a, h;
    var i := 0;
    while i < |odps|
      invariant 0 <= i <= |odps|
      invariant (arrays, hydrophones) == OdpPass(a, h, entryName, odps[..i])
    {
      assert odps[..i + 1][..i] == odps[..i];
      var (code, name) := odps[i];
      if OdpMatch(entryName, name) {
        var base := BasePrefix(code);
        if base.Some? {
          var b := base.value;
          arrays := Touch(arrays, b);
          if At(arrays, b) != [] {
            hydrophones := At(arrays, b);
          }
        }
      }
      i := i + 1;
    }
    assert odps[..i] == odps;
  }

  /** The comment of an entry: the first prefix that is a key decides. */
  method CommentFor(a: Arrays, bases: seq<string>, locs: Locations) returns (comment: string)
    ensures comment == FirstComment(a, bases, locs)
  {
    comment := "";
    var i := 0;
    while i < |bases|
      invariant 0 <= i <= |bases|
      invariant FirstComment(a, bases, locs) == FirstComment(a, bases[i..], locs)
      invariant comment == ""
    {
      assert bases[i..][1..] == bases[i + 1..];
      if bases[i] != "" && HasKey(a, bases[i]) {
        var j := 0;
        while j < |locs|
          invariant 0 <= j <= |locs|
          invariant NameComment(locs, bases[i]) == NameComment(locs[j..], bases[i])
          invariant comment == ""
        {
          assert locs[j..][1..] == locs[j + 1..];
          if StartsWith(locs[j].0, bases[i]) {
            comment := "  # " + locs[j].1;
            return;
          }
          j := j + 1;
        }
        return;
      }
      i := i + 1;
    }
  }

  /** The script's main flow without its console output and file write:
      nothing is generated when the discovery found no location. */
  method AutoDiscoverDivertMappings(locs: Locations) returns (code: Option<string>)
    ensures code.None? <==> locs == []
    ensures code.Some? ==> code.value == MappingText(locs, Categorize(locs))
  {
    if |locs| == 0 {
      return None;
    }
    var categorized := AnalyzeLocationNames(locs);
    var clues := ExtractLocationMappingClues(locs);
    var text := GenerateDivertMapping(locs, categorized);
    code := Some(text);
  }
}
