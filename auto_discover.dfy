/** The automatic divert-mapping generator: from the discovered hydrophone
    locations (code and name, in discovery order) it sorts the locations
    into divert systems, extracts naming clues, groups hydrophone arrays
    by their letter prefix and writes the text of a `LOCATION_MAPPING`
    table. The discovery itself, the console output and the file write
    are left out. */
module AutoDiscover {
  import opened Text
  import opened Dict

  /** The discovered locations: location code to location name, in the
      order the discovery inserted them. */
  type Locations = Assoc<string, string>

  // ---------------------------------------------------------------------------
  // analyze_location_names
  // ---------------------------------------------------------------------------

  datatype Category = SoG | Saanich | Odp | NcDds | Other

  const SogKeywords: seq<string> := ["STRAIT OF GEORGIA", "SOG", "GEORGIA STRAIT"]
  const SaanichKeywords: seq<string> := ["SAANICH", "PATRICIA BAY"]
  const OdpKeywords: seq<string> := ["ODP", "OCEAN DRILLING", "DRILLING PROGRAM"]
  const NcDdsKeywords: seq<string> := ["BARKLEY", "CASCADIA", "ENDEAVOUR", "FOLGER"]

  /** The system a location name points to, judged on the upper-cased name;
      the first keyword group that matches wins, in the order SoG, Saanich,
      ODP, NC-DDS. */
  function CategoryOf(name: string): (c: Category)
    ensures c == SoG <==> AnyIn(SogKeywords, Upper(name))
    ensures c == Saanich <==> !AnyIn(SogKeywords, Upper(name)) && AnyIn(SaanichKeywords, Upper(name))
    ensures c == Odp <==> !AnyIn(SogKeywords, Upper(name)) && !AnyIn(SaanichKeywords, Upper(name))
                          && AnyIn(OdpKeywords, Upper(name))
    ensures c == NcDds <==> !AnyIn(SogKeywords, Upper(name)) && !AnyIn(SaanichKeywords, Upper(name))
                            && !AnyIn(OdpKeywords, Upper(name)) && AnyIn(NcDdsKeywords, Upper(name))
  {
    var u := Upper(name);
    if AnyIn(SogKeywords, u) then SoG
    else if AnyIn(SaanichKeywords, u) then Saanich
    else if AnyIn(OdpKeywords, u) then Odp
    else if AnyIn(NcDdsKeywords, u) then NcDds
    else Other
  }

  /** The locations of one category, in discovery order. */
  function InCategory(locs: Locations, c: Category): seq<(string, string)> {
    if locs == [] then []
    else
      var n := |locs| - 1;
      InCategory(locs[..n], c) + (if CategoryOf(locs[n].1) == c then [locs[n]] else [])
  }

  lemma {:induction false} InCategoryExact(locs: Locations, c: Category)
    ensures forall x :: x in InCategory(locs, c) <==> x in locs && CategoryOf(x.1) == c
  {
    if locs != [] {
      var n := |locs| - 1;
      InCategoryExact(locs[..n], c);
      assert locs == locs[..n] + [locs[n]];
    }
  }

  /** The five lists split the locations: their lengths add up to the
      number of locations, and each location sits in its own category's
      list. */
  lemma {:induction false} CategoriesPartition(locs: Locations)
    ensures |InCategory(locs, SoG)| + |InCategory(locs, Saanich)| + |InCategory(locs, Odp)|
            + |InCategory(locs, NcDds)| + |InCategory(locs, Other)| == |locs|
    ensures forall x, c :: x in locs ==> (x in InCategory(locs, c) <==> c == CategoryOf(x.1))
  {
    if locs != [] {
      CategoriesPartition(locs[..|locs| - 1]);
    }
    forall c ensures forall x :: x in InCategory(locs, c) <==> x in locs && CategoryOf(x.1) == c {
      InCategoryExact(locs, c);
    }
  }

  /** The result of `analyze_location_names`. */
  datatype Categorized = Categorized(
    sog: seq<(string, string)>,
    saanich: seq<(string, string)>,
    ncDds: seq<(string, string)>,
    odp: seq<(string, string)>,
    other: seq<(string, string)>)

  function Categorize(locs: Locations): Categorized {
    Categorized(InCategory(locs, SoG), InCategory(locs, Saanich), InCategory(locs, NcDds),
                InCategory(locs, Odp), InCategory(locs, Other))
  }

  /** `analyze_location_names`: one pass appending each location to the
      list of its category. */
  method AnalyzeLocationNames(locs: Locations) returns (c: Categorized)
    ensures c == Categorize(locs)
  {
    var sog, saanich, ncDds, odp, other := [], [], [], [], [];
    var i := 0;
    while i < |locs|
      invariant 0 <= i <= |locs|
      invariant sog == InCategory(locs[..i], SoG) && saanich == InCategory(locs[..i], Saanich)
      invariant odp == InCategory(locs[..i], Odp) && ncDds == InCategory(locs[..i], NcDds)
      invariant other == InCategory(locs[..i], Other)
    {
      assert locs[..i + 1][..i] == locs[..i];
      var name := Upper(locs[i].1);
      if AnyIn(SogKeywords, name) {
        sog := sog + [locs[i]];
      } else if AnyIn(SaanichKeywords, name) {
        saanich := saanich + [locs[i]];
      } else if AnyIn(OdpKeywords, name) {
        odp := odp + [locs[i]];
      } else if AnyIn(NcDdsKeywords, name) {
        ncDds := ncDds + [locs[i]];
      } else {
        other := other + [locs[i]];
      }
      i := i + 1;
    }
    assert locs[..i] == locs;
    c := Categorized(sog, saanich, ncDds, odp, other);
  }

  // ---------------------------------------------------------------------------
  // extract_location_mapping_clues
  // ---------------------------------------------------------------------------

  /** A non-empty run of `[A-Z0-9.]`. */
  predicate CodeChars(s: string) {
    s != [] && forall k :: 0 <= k < |s| ==> CodeChar(s[k])
  }

  /** A non-empty run of ASCII digits. */
  predicate Digits(s: string) {
    s != [] && forall k :: 0 <= k < |s| ==> IsDigit(s[k])
  }

  /** The code of a `[CODE]` group starting at `i`: a `[`, a run of
      `[A-Z0-9.]`, then `]`. The run is greedy and `]` is not in the class,
      so only the longest run can be followed by `]`. */
  function BracketAt(s: string, i: nat): (r: Option<string>)
    requires i <= |s|
    ensures r.Some? ==> CodeChars(r.value)
  {
    if i < |s| && s[i] == '[' then
      var n := CodeRun(s, i + 1);
      if n > 0 && i + 1 + n < |s| && s[i + 1 + n] == ']' then Some(s[i + 1..i + 1 + n]) else None
    else None
  }

  /** A bracket group found at `i` is there in the text: `[`, the code, `]`. */
  lemma BracketAtShape(s: string, i: nat)
    requires i <= |s| && BracketAt(s, i).Some?
    ensures i + |BracketAt(s, i).value| + 2 <= |s| && s[i] == '['
    ensures s[i + 1..i + 1 + |BracketAt(s, i).value|] == BracketAt(s, i).value
    ensures s[i + 1 + |BracketAt(s, i).value|] == ']'
  {
  }

  /** The leftmost bracket group at or after `i` (`re.search`). */
  function FirstBracket(s: string, i: nat): (r: Option<string>)
    requires i <= |s|
    decreases |s| - i
    ensures r.Some? ==> CodeChars(r.value)
  {
    if BracketAt(s, i).Some? then BracketAt(s, i)
    else if i == |s| then None
    else FirstBracket(s, i + 1)
  }

  /** `FirstBracket` finds the leftmost group, and none means no group. */
  lemma {:induction false} FirstBracketLeftmost(s: string, i: nat)
    requires i <= |s|
    decreases |s| - i
    ensures FirstBracket(s, i).Some? ==>
              exists j :: i <= j <= |s| && BracketAt(s, j) == FirstBracket(s, i)
                          && forall k :: i <= k < j ==> BracketAt(s, k).None?
    ensures FirstBracket(s, i).None? ==> forall k :: i <= k <= |s| ==> BracketAt(s, k).None?
  {
    if BracketAt(s, i).None? && i < |s| {
      FirstBracketLeftmost(s, i + 1);
    }
  }

  /** `ODP`, in any case, at `i`. */
  predicate OdpWordAt(s: string, i: nat) {
    && i + 3 <= |s|
    && (s[i] == 'o' || s[i] == 'O')
    && (s[i + 1] == 'd' || s[i + 1] == 'D')
    && (s[i + 2] == 'p' || s[i + 2] == 'P')
  }

  /** The site number of `ODP\s*(\d+)[A-Z]?` matched at `i`, ignoring case.
      The optional letter never makes the match fail, and the digit run is
      greedy, so the group is the whole digit run after the spaces. */
  function OdpAt(s: string, i: nat): (r: Option<string>)
    requires i <= |s|
    ensures r.Some? ==> OdpWordAt(s, i) && Digits(r.value)
  {
    if OdpWordAt(s, i) then
      var j := SkipSpaces(s, i + 3);
      var n := DigitRun(s, j);
      if n > 0 then Some(s[j..j + n]) else None
    else None
  }

  /** The leftmost ODP site number at or after `i`. */
  function FirstOdp(s: string, i: nat): (r: Option<string>)
    requires i <= |s|
    decreases |s| - i
    ensures r.Some? ==> Digits(r.value)
  {
    if OdpAt(s, i).Some? then OdpAt(s, i)
    else if i == |s| then None
    else FirstOdp(s, i + 1)
  }

  /** `FirstOdp` finds the leftmost match, and none means no match. */
  lemma {:induction false} FirstOdpLeftmost(s: string, i: nat)
    requires i <= |s|
    decreases |s| - i
    ensures FirstOdp(s, i).Some? ==>
              exists j :: i <= j <= |s| && OdpAt(s, j) == FirstOdp(s, i)
                          && forall k :: i <= k < j ==> OdpAt(s, k).None?
    ensures FirstOdp(s, i).None? ==> forall k :: i <= k <= |s| ==> OdpAt(s, k).None?
  {
    if OdpAt(s, i).Some? {
      assert OdpAt(s, i) == FirstOdp(s, i);
    } else if i < |s| {
      FirstOdpLeftmost(s, i + 1);
      assert FirstOdp(s, i) == FirstOdp(s, i + 1);
      if FirstOdp(s, i).Some? {
        var j :| i + 1 <= j <= |s| && OdpAt(s, j) == FirstOdp(s, i + 1)
                 && forall k :: i + 1 <= k < j ==> OdpAt(s, k).None?;
        assert forall k :: i <= k < j ==> OdpAt(s, k).None?;
      }
    }
  }

  /** Geographic clue names with the keywords that must all appear. */
  const GeoPatterns: seq<(string, seq<string>)> := [
    ("Barkley Canyon", ["BARKLEY", "CANYON"]),
    ("Cascadia Basin", ["CASCADIA", "BASIN"]),
    ("Endeavour", ["ENDEAVOUR"]),
    ("Folger", ["FOLGER"]),
    ("Saanich", ["SAANICH"])
  ]

  /** Python's `all(k in s for k in keywords)`. */
  predicate AllIn(keywords: seq<string>, s: string) {
    forall i :: 0 <= i < |keywords| ==> Contains(s, keywords[i])
  }

  /** The geographic clues of `patterns` for the upper-cased name `u`. */
  function GeoWrites(patterns: seq<(string, seq<string>)>, u: string, code: string): seq<(string, string)> {
    if patterns == [] then []
    else
      var n := |patterns| - 1;
      GeoWrites(patterns[..n], u, code) + (if AllIn(patterns[n].1, u) then [(patterns[n].0, code)] else [])
  }

  lemma GeoWritesStep(patterns: seq<(string, seq<string>)>, u: string, code: string, j: nat)
    requires j < |patterns|
    ensures GeoWrites(patterns[..j + 1], u, code) ==
              GeoWrites(patterns[..j], u, code) + (if AllIn(patterns[j].1, u) then [(patterns[j].0, code)] else [])
  {
    assert patterns[..j + 1][..j] == patterns[..j];
  }

  lemma {:induction false} GeoWritesExact(patterns: seq<(string, seq<string>)>, u: string, code: string)
    ensures forall w :: w in GeoWrites(patterns, u, code) <==>
              w.1 == code && exists i :: 0 <= i < |patterns| && patterns[i].0 == w.0 && AllIn(patterns[i].1, u)
  {
    if patterns != [] {
      var n := |patterns| - 1;
      GeoWritesExact(patterns[..n], u, code);
      assert forall i :: 0 <= i < n ==> patterns[..n][i] == patterns[i];
    }
  }

  /** The bracket clue of a location: its bracketed code, unless that is the
      location's own code. */
  function BracketWrites(code: string, name: string): seq<(string, string)> {
    match FirstBracket(name, 0)
    case Some(b) => if b != code then [(b, code)] else []
    case None => []
  }

  /** The ODP clues of a location: `ODP n` and its variant `ODP nC`. */
  function OdpWrites(code: string, name: string): seq<(string, string)> {
    match FirstOdp(name, 0)
    case Some(n) => [("ODP " + n, code), ("ODP " + n + "C", code)]
    case None => []
  }

  /** The dictionary assignments one location makes, in order. */
  function ClueWrites(code: string, name: string, patterns: seq<(string, seq<string>)>): seq<(string, string)> {
    BracketWrites(code, name) + OdpWrites(code, name) + GeoWrites(patterns, Upper(name), code)
  }

  /** The assignments of all locations, in discovery order. */
  function AllClueWrites(locs: Locations, patterns: seq<(string, seq<string>)>): seq<(string, string)> {
    if locs == [] then []
    else
      var n := |locs| - 1;
      AllClueWrites(locs[..n], patterns) + ClueWrites(locs[n].0, locs[n].1, patterns)
  }

  /** The clue dictionary: every assignment applied in turn. */
  function Clues(locs: Locations): Assoc<string, string> {
    PutAll([], AllClueWrites(locs, GeoPatterns))
  }

  /** A later assignment of the same clue wins. */
  lemma CluesLookup(locs: Locations, k: string)
    ensures Lookup(Clues(locs), k) == LastValue(AllClueWrites(locs, GeoPatterns), k)
  {
    PutAllLookup([], AllClueWrites(locs, GeoPatterns), k);
  }

  /** Clue names of geographic patterns are distinct and have a lower-case
      second letter, so they are neither bracketed codes nor ODP clue names. */
  predicate GeoNames(patterns: seq<(string, seq<string>)>) {
    && (forall i :: 0 <= i < |patterns| ==> |patterns[i].0| > 1 && IsLower(patterns[i].0[1]))
    && (forall i, j :: 0 <= i < j < |patterns| ==> patterns[i].0 != patterns[j].0)
  }

  lemma GeoPatternsNames()
    ensures GeoNames(GeoPatterns)
  {
  }

  /** The bracket clue is a non-empty run of code characters. */
  lemma BracketWritesKeys(code: string, name: string)
    ensures forall w :: w in BracketWrites(code, name) ==> w.1 == code && CodeChars(w.0)
    ensures FirstBracket(name, 0).Some? ==>
              ((FirstBracket(name, 0).value, code) in BracketWrites(code, name) <==> FirstBracket(name, 0).value != code)
  {
  }

  /** ODP clue names start with `ODP `. */
  lemma OdpWritesKeys(code: string, name: string)
    ensures forall w :: w in OdpWrites(code, name) ==> w.1 == code && |w.0| > 3 && w.0[1] == 'D' && w.0[3] == ' '
  {
  }

  /** What one location contributes: every clue points at the location; a
      bracketed code becomes a clue exactly when it is not the location's
      own code; a site number adds both `ODP n` and `ODP nC`; a geographic
      clue is added exactly when all its keywords appear. */
  lemma ClueWritesShape(code: string, name: string)
    ensures forall w :: w in ClueWrites(code, name, GeoPatterns) ==> w.1 == code
    ensures FirstBracket(name, 0).Some? ==>
              ((FirstBracket(name, 0).value, code) in ClueWrites(code, name, GeoPatterns)
               <==> FirstBracket(name, 0).value != code)
    ensures FirstOdp(name, 0).Some? ==>
              ("ODP " + FirstOdp(name, 0).value, code) in ClueWrites(code, name, GeoPatterns)
              && ("ODP " + FirstOdp(name, 0).value + "C", code) in ClueWrites(code, name, GeoPatterns)
    ensures forall i :: 0 <= i < |GeoPatterns| ==>
              ((GeoPatterns[i].0, code) in ClueWrites(code, name, GeoPatterns) <==> AllIn(GeoPatterns[i].1, Upper(name)))
  {
    GeoPatternsNames();
    ClueWritesWith(code, name, GeoPatterns);
  }

  lemma ClueWritesWith(code: string, name: string, patterns: seq<(string, seq<string>)>)
    requires GeoNames(patterns)
    ensures forall w :: w in ClueWrites(code, name, patterns) ==> w.1 == code
    ensures FirstBracket(name, 0).Some? ==>
              ((FirstBracket(name, 0).value, code) in ClueWrites(code, name, patterns)
               <==> FirstBracket(name, 0).value != code)
    ensures FirstOdp(name, 0).Some? ==>
              ("ODP " + FirstOdp(name, 0).value, code) in ClueWrites(code, name, patterns)
              && ("ODP " + FirstOdp(name, 0).value + "C", code) in ClueWrites(code, name, patterns)
    ensures forall i :: 0 <= i < |patterns| ==>
              ((patterns[i].0, code) in ClueWrites(code, name, patterns) <==> AllIn(patterns[i].1, Upper(name)))
  {
    var bw, ow, gw := BracketWrites(code, name), OdpWrites(code, name), GeoWrites(patterns, Upper(name), code);
    assert ClueWrites(code, name, patterns) == bw + ow + gw;
    GeoWritesExact(patterns, Upper(name), code);
    BracketWritesKeys(code, name);
    OdpWritesKeys(code, name);
    forall w | w in bw
      ensures w !in ow && w !in gw
    {
      assert |w.0| > 3 ==> w.0[3] != ' ';
      assert |w.0| > 1 ==> !IsLower(w.0[1]);
    }
    forall i | 0 <= i < |patterns|
      ensures (patterns[i].0, code) !in bw + ow
    {
    }
  }

  /** `extract_location_mapping_clues`: for each location, the bracket
      clue, the two ODP clues and the geographic clues, assigned into one
      dictionary. */
  method ExtractLocationMappingClues(locs: Locations) returns (clues: Assoc<string, string>)
    ensures clues == Clues(locs)
  {
    clues := ExtractClues(locs, GeoPatterns);
  }

  /** The clue loop over the locations, for a table of geographic patterns. */
  method ExtractClues(locs: Locations, patterns: seq<(string, seq<string>)>) returns (clues: Assoc<string, string>)
    ensures clues == PutAll([], AllClueWrites(locs, patterns))
  {
    clues := [];
    var i := 0;
    while i < |locs|
      invariant 0 <= i <= |locs|
      invariant clues == PutAll([], AllClueWrites(locs[..i], patterns))
    {
      assert locs[..i + 1][..i] == locs[..i];
      PutAllAppend([], AllClueWrites(locs[..i], patterns), ClueWrites(locs[i].0, locs[i].1, patterns));
      clues := AddLocationClues(clues, locs[i].0, locs[i].1, patterns);
      i := i + 1;
    }
    assert locs[..i] == locs;
  }

  /** The assignments one location makes: its bracket clue, its ODP clues,
      then its geographic clues. */
  method AddLocationClues(clues: Assoc<string, string>, code: string, name: string, patterns: seq<(string, seq<string>)>)
    returns (r: Assoc<string, string>)
    requires KeysUnique(clues)
    ensures r == PutAll(clues, ClueWrites(code, name, patterns))
  {
    var bw, ow, gw := BracketWrites(code, name), OdpWrites(code, name), GeoWrites(patterns, Upper(name), code);
    r := AddBracketClue(clues, code, name);
    r := AddOdpClues(r, code, name);
    PutAllAppend(clues, bw, ow);
    r := AddGeoClues(r, Upper(name), code, patterns);
    PutAllAppend(clues, bw + ow, gw);
  }

  /** The bracketed code of the name, unless it is the location's own. */
  method AddBracketClue(clues: Assoc<string, string>, code: string, name: string) returns (r: Assoc<string, string>)
    requires KeysUnique(clues)
    ensures r == PutAll(clues, BracketWrites(code, name))
  {
    var bracket := FirstBracket(name, 0);
    if bracket.Some? && bracket.value != code {
      assert BracketWrites(code, name) == [] + [(bracket.value, code)];
      PutAllSnoc(clues, [], (bracket.value, code));
      r := Put(clues, bracket.value, code);
    } else {
      r := clues;
    }
  }

  /** `ODP n` and then `ODP nC` for the site number of the name. */
  method AddOdpClues(clues: Assoc<string, string>, code: string, name: string) returns (r: Assoc<string, string>)
    requires KeysUnique(clues)
    ensures r == PutAll(clues, OdpWrites(code, name))
  {
    var odp := FirstOdp(name, 0);
    if odp.Some? {
      var w1, w2 := ("ODP " + odp.value, code), ("ODP " + odp.value + "C", code);
      assert OdpWrites(code, name) == [] + [w1] + [w2];
      PutAllSnoc(clues, [], w1);
      PutAllSnoc(clues, [w1], w2);
      assert [] + [w1] == [w1];
      r := Put(clues, w1.0, w1.1);
      r := Put(r, w2.0, w2.1);
    } else {
      r := clues;
    }
  }

  /** The geographic clues of one location. */
  method AddGeoClues(clues: Assoc<string, string>, u: string, code: string, patterns: seq<(string, seq<string>)>)
    returns (r: Assoc<string, string>)
    requires KeysUnique(clues)
    ensures r == PutAll(clues, GeoWrites(patterns, u, code))
  {
    r := clues;
    var j := 0;
    while j < |patterns|
      invariant 0 <= j <= |patterns|
      invariant r == PutAll(clues, GeoWrites(patterns[..j], u, code))
    {
      GeoWritesStep(patterns, u, code, j);
      ghost var before := GeoWrites(patterns[..j], u, code);
      if AllIn(patterns[j].1, u) {
        PutAllSnoc(clues, before, (patterns[j].0, code));
        r := Put(r, patterns[j].0, code);
        assert GeoWrites(patterns[..j + 1], u, code) == before + [(patterns[j].0, code)];
      } else {
        assert GeoWrites(patterns[..j + 1], u, code) == before;
      }
      j := j + 1;
    }
    assert patterns[..j] == patterns;
  }
}
