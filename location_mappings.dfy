/** The divert-email location table: which hydrophone location codes each
    location name of a divert notification stands for, the three divert
    systems' name sets, and the helpers that query and validate the table. */
module LocationMappings {
  import opened Text

  /** A Python dict literal as its ordered list of entries. */
  type Table = seq<(string, seq<string>)>

  /** The table, in the order of its six sections: SoG DDS, Saanich DDS,
      NC-DDS with bracket numbers, further ODP sites, NC-DDS without
      bracket numbers, and the remaining named locations. */
  const LocationMapping: Table :=
    SogDdsEntries + SaanichDdsEntries + NcDdsBracketEntries + OdpSiteEntries
    + NcDdsFallbackEntries + AdditionalEntries

  const SogDdsEntries: Table := [
    ("SoG_East", ["ECHO3.H1", "ECHO3.H2", "ECHO3.H3", "ECHO3.H4"]),
    ("SoG_Delta", ["CBCH.H1", "CBCH.H2", "CBCH.H3", "CBCH.H4"]),
    ("SoG_Central", ["PSGCH.H1", "PSGCH.H3"])
  ]

  const SaanichDdsEntries: Table := [
    ("Saanich_Inlet", ["PVIPH.H1", "PVIPH.H3"])
  ]

  const NcDdsBracketEntries: Table := [
    ("[1] Barkley Cnyn", ["BACNH.H1", "BACNH.H2", "BACNH.H3", "BACNH.H4", "BACUS"]),
    ("[2] ODP 1027", ["CBCH.H1", "CBCH.H2", "CBCH.H3", "CBCH.H4"]),
    ("[3] Endeavour", ["KEMFH.H1", "KEMFH.H2", "KEMFH.H3", "KEMFH.H4"]),
    ("[4] ODP 889", []),
    ("[5] Folger Pass", ["FGPD"])
  ]

  const OdpSiteEntries: Table := [
    ("ODP 1364A", ["CQSH.H1", "CQSH.H2", "CQSH.H3", "CQSH.H4"]),
    ("ODP 1026", ["NC27.H3", "NC27.H4"])
  ]

  const NcDdsFallbackEntries: Table := [
    ("Barkley Cnyn", ["BACNH.H1", "BACNH.H2", "BACNH.H3", "BACNH.H4", "BACUS"]),
    ("ODP 1027", ["CBCH.H1", "CBCH.H2", "CBCH.H3", "CBCH.H4"]),
    ("Endeavour", ["KEMFH.H1", "KEMFH.H2", "KEMFH.H3", "KEMFH.H4"]),
    ("ODP 889", []),
    ("Folger Pass", ["FGPD"])
  ]

  const AdditionalEntries: Table := [
    ("Burrard Inlet", ["BIIP"]),
    ("Cambridge Bay", ["CBYIP"]),
    ("China Creek", ["CCIP"]),
    ("Clayoquot Slope", ["CQSH.H1", "CQSH.H2", "CQSH.H3", "CQSH.H4"]),
    ("Digby Island", ["DIIP"]),
    ("Hartley Bay", ["HBIP"]),
    ("Holyrood Bay", ["HRBIP"]),
    ("Kitamaat Village", ["KVIP"])
  ]

  const SogDdsLocations: set<string> := {"SoG_East", "SoG_Delta", "SoG_Central"}

  const SaanichDdsLocations: set<string> := {"Saanich_Inlet"}

  const NcDdsLocations: set<string> := {
    "[1] Barkley Cnyn", "[2] ODP 1027", "[3] Endeavour", "[4] ODP 889", "[5] Folger Pass",
    "Barkley Cnyn", "ODP 1027", "Endeavour", "ODP 889", "Folger Pass"
  }

  const OdpLocations: set<string> := {
    "ODP 1027", "ODP 1364A", "ODP 1026", "ODP 889", "[2] ODP 1027", "[4] ODP 889"
  }

  predicate IsKey(t: Table, name: string) {
    exists i :: 0 <= i < |t| && t[i].0 == name
  }

  predicate DistinctKeys(t: Table) {
    forall i, j :: 0 <= i < j < |t| ==> t[i].0 != t[j].0
  }

  /** `t.get(name, [])`. */
  function Get(t: Table, name: string): (codes: seq<string>)
    ensures !IsKey(t, name) ==> codes == []
    ensures DistinctKeys(t) ==> forall i :: 0 <= i < |t| && t[i].0 == name ==> codes == t[i].1
  {
    if t == [] then []
    else if t[0].0 == name then t[0].1
    else
      assert forall i :: 1 <= i < |t| ==> t[1..][i - 1] == t[i];
      Get(t[1..], name)
  }

  /** The codes of the shipped table for `name`, `[]` for a name it does not list. */
  function GetHydrophoneCodes(name: string): (codes: seq<string>)
    ensures !IsKey(LocationMapping, name) ==> codes == []
    ensures forall i :: 0 <= i < |LocationMapping| && LocationMapping[i].0 == name ==>
              codes == LocationMapping[i].1
  {
    ShippedKeysDistinct();
    Get(LocationMapping, name)
  }

  predicate KeysDisjoint(a: Table, b: Table) {
    forall i, j :: 0 <= i < |a| && 0 <= j < |b| ==> a[i].0 != b[j].0
  }

  lemma DistinctKeysAppend(a: Table, b: Table)
    requires DistinctKeys(a) && DistinctKeys(b) && KeysDisjoint(a, b)
    ensures DistinctKeys(a + b)
  {
    forall i, j | 0 <= i < j < |a + b|
      ensures (a + b)[i].0 != (a + b)[j].0
    {
      if j < |a| {
      } else if i >= |a| {
        assert (a + b)[i] == b[i - |a|] && (a + b)[j] == b[j - |a|];
      } else {
        assert (a + b)[j] == b[j - |a|];
      }
    }
  }

  lemma KeysDisjointAppend(a: Table, b: Table, c: Table)
    requires KeysDisjoint(a, c) && KeysDisjoint(b, c)
    ensures KeysDisjoint(a + b, c)
  {
    forall i, j | 0 <= i < |a + b| && 0 <= j < |c|
      ensures (a + b)[i].0 != c[j].0
    {
      if i >= |a| {
        assert (a + b)[i] == b[i - |a|];
      }
    }
  }

  lemma SectionKeysDistinct()
    ensures DistinctKeys(SogDdsEntries) && DistinctKeys(SaanichDdsEntries)
    ensures DistinctKeys(NcDdsBracketEntries) && DistinctKeys(OdpSiteEntries)
    ensures DistinctKeys(NcDdsFallbackEntries) && DistinctKeys(AdditionalEntries)
  {
  }

  lemma EarlySectionKeysDisjoint()
    ensures KeysDisjoint(SogDdsEntries, SaanichDdsEntries)
    ensures KeysDisjoint(SogDdsEntries, NcDdsBracketEntries)
    ensures KeysDisjoint(SaanichDdsEntries, NcDdsBracketEntries)
    ensures KeysDisjoint(SogDdsEntries, OdpSiteEntries)
    ensures KeysDisjoint(SaanichDdsEntries, OdpSiteEntries)
    ensures KeysDisjoint(NcDdsBracketEntries, OdpSiteEntries)
  {
  }

  lemma FallbackKeysDisjoint()
    ensures KeysDisjoint(SogDdsEntries, NcDdsFallbackEntries)
    ensures KeysDisjoint(SaanichDdsEntries, NcDdsFallbackEntries)
    ensures KeysDisjoint(NcDdsBracketEntries, NcDdsFallbackEntries)
    ensures KeysDisjoint(OdpSiteEntries, NcDdsFallbackEntries)
  {
  }

  lemma AdditionalKeysDisjoint()
    ensures KeysDisjoint(SogDdsEntries, AdditionalEntries)
    ensures KeysDisjoint(SaanichDdsEntries, AdditionalEntries)
    ensures KeysDisjoint(NcDdsBracketEntries, AdditionalEntries)
    ensures KeysDisjoint(OdpSiteEntries, AdditionalEntries)
    ensures KeysDisjoint(NcDdsFallbackEntries, AdditionalEntries)
  {
  }

  /** No location name is listed twice, so the dict literal loses no entry. */
  lemma ShippedKeysDistinct()
    ensures DistinctKeys(LocationMapping)
  {
    var s1, s2, s3, s4, s5, s6 := SogDdsEntries, SaanichDdsEntries, NcDdsBracketEntries,
      OdpSiteEntries, NcDdsFallbackEntries, AdditionalEntries;
    SectionKeysDistinct();
    EarlySectionKeysDisjoint();
    FallbackKeysDisjoint();
    AdditionalKeysDisjoint();
    DistinctKeysAppend(s1, s2);
    KeysDisjointAppend(s1, s2, s3);
    DistinctKeysAppend(s1 + s2, s3);
    KeysDisjointAppend(s1, s2, s4);
    KeysDisjointAppend(s1 + s2, s3, s4);
    DistinctKeysAppend(s1 + s2 + s3, s4);
    KeysDisjointAppend(s1, s2, s5);
    KeysDisjointAppend(s1 + s2, s3, s5);
    KeysDisjointAppend(s1 + s2 + s3, s4, s5);
    DistinctKeysAppend(s1 + s2 + s3 + s4, s5);
    KeysDisjointAppend(s1, s2, s6);
    KeysDisjointAppend(s1 + s2, s3, s6);
    KeysDisjointAppend(s1 + s2 + s3, s4, s6);
    KeysDisjointAppend(s1 + s2 + s3 + s4, s5, s6);
    DistinctKeysAppend(s1 + s2 + s3 + s4 + s5, s6);
  }

  /** The divert system a location name belongs to, checked SoG, NC-DDS,
      Saanich in that order. */
  function GetSystemForLocation(name: string): (system: string)
    ensures system == "SoG DDS" <==> name in SogDdsLocations
    ensures system == "NC-DDS" <==> name !in SogDdsLocations && name in NcDdsLocations
    ensures system == "Saanich DDS" <==>
              name !in SogDdsLocations && name !in NcDdsLocations && name in SaanichDdsLocations
    ensures system == "Unknown" <==>
              name !in SogDdsLocations && name !in NcDdsLocations && name !in SaanichDdsLocations
  {
    if name in SogDdsLocations then "SoG DDS"
    else if name in NcDdsLocations then "NC-DDS"
    else if name in SaanichDdsLocations then "Saanich DDS"
    else "Unknown"
  }

  predicate IsOdpLocation(name: string) {
    name in OdpLocations
  }

  /** The names whose code list is non-empty, in table order. */
  function MappedNames(t: Table): (names: seq<string>)
    ensures |names| <= |t|
  {
    if t == [] then []
    else (if t[0].1 != [] then [t[0].0] else []) + MappedNames(t[1..])
  }

  lemma {:induction false} MappedNamesMembers(t: Table, n: string)
    ensures n in MappedNames(t) <==> exists i :: 0 <= i < |t| && t[i].0 == n && t[i].1 != []
  {
    if t != [] {
      MappedNamesMembers(t[1..], n);
      assert forall i :: 1 <= i < |t| ==> t[1..][i - 1] == t[i];
    }
  }

  /** The names whose code list is empty, in table order. */
  function UnmappedNames(t: Table): (names: seq<string>)
    ensures |names| <= |t|
  {
    if t == [] then []
    else (if t[0].1 == [] then [t[0].0] else []) + UnmappedNames(t[1..])
  }

  lemma {:induction false} UnmappedNamesMembers(t: Table, n: string)
    ensures n in UnmappedNames(t) <==> exists i :: 0 <= i < |t| && t[i].0 == n && t[i].1 == []
  {
    if t != [] {
      UnmappedNamesMembers(t[1..], n);
      assert forall i :: 1 <= i < |t| ==> t[1..][i - 1] == t[i];
    }
  }

  /** Every entry is mapped or unmapped and never both. */
  lemma {:induction false} MappedUnmappedPartition(t: Table)
    ensures |MappedNames(t)| + |UnmappedNames(t)| == |t|
  {
    if t != [] {
      MappedUnmappedPartition(t[1..]);
    }
  }

  function GetAllMappedLocations(): seq<string> {
    MappedNames(LocationMapping)
  }

  function GetUnmappedLocations(): seq<string> {
    UnmappedNames(LocationMapping)
  }

  lemma {:induction false} UnmappedNamesAppend(a: Table, b: Table)
    ensures UnmappedNames(a + b) == UnmappedNames(a) + UnmappedNames(b)
  {
    if a != [] {
      assert (a + b)[1..] == a[1..] + b;
      UnmappedNamesAppend(a[1..], b);
    } else {
      assert a + b == b;
    }
  }

  /** With the shipped table only the two ODP 889 names lack codes. */
  lemma ShippedUnmapped()
    ensures GetUnmappedLocations() == ["[4] ODP 889", "ODP 889"]
    ensures |GetAllMappedLocations()| == 22
  {
    var t1 := SogDdsEntries + SaanichDdsEntries;
    var t2 := t1 + NcDdsBracketEntries;
    var t3 := t2 + OdpSiteEntries;
    var t4 := t3 + NcDdsFallbackEntries;
    UnmappedNamesAppend(SogDdsEntries, SaanichDdsEntries);
    UnmappedNamesAppend(t1, NcDdsBracketEntries);
    UnmappedNamesAppend(t2, OdpSiteEntries);
    UnmappedNamesAppend(t3, NcDdsFallbackEntries);
    UnmappedNamesAppend(t4, AdditionalEntries);
    assert UnmappedNames(SogDdsEntries) == [];
    assert UnmappedNames(SaanichDdsEntries) == [];
    assert UnmappedNames(NcDdsBracketEntries) == ["[4] ODP 889"];
    assert UnmappedNames(OdpSiteEntries) == [];
    assert UnmappedNames(NcDdsFallbackEntries) == ["ODP 889"];
    assert UnmappedNames(AdditionalEntries) == [];
    MappedUnmappedPartition(LocationMapping);
  }

  /** All code lists concatenated, in table order. */
  function AllCodes(t: Table): seq<string> {
    if t == [] then [] else t[0].1 + AllCodes(t[1..])
  }

  lemma {:induction false} AllCodesMembers(t: Table, c: string)
    ensures c in AllCodes(t) <==> exists i :: 0 <= i < |t| && c in t[i].1
  {
    if t != [] {
      AllCodesMembers(t[1..], c);
      assert forall i :: 1 <= i < |t| ==> t[1..][i - 1] == t[i];
    }
  }

  function Elements(s: seq<string>): set<string> {
    set x | x in s
  }

  lemma {:induction false} ElementsBound(s: seq<string>)
    ensures |Elements(s)| <= |s|
  {
    if s != [] {
      var init := s[..|s| - 1];
      ElementsBound(init);
      assert Elements(s) == Elements(init) + {s[|s| - 1]} by {
        assert s == init + [s[|s| - 1]];
      }
    }
  }

  lemma {:induction false} AllCodesAppend(a: Table, b: Table)
    ensures AllCodes(a + b) == AllCodes(a) + AllCodes(b)
  {
    if a != [] {
      assert (a + b)[1..] == a[1..] + b;
      AllCodesAppend(a[1..], b);
    } else {
      assert a + b == b;
    }
  }

  /** A repeated element makes the set strictly smaller than the list. */
  lemma {:induction false} ElementsBoundStrict(s: seq<string>, i: nat, j: nat)
    requires i < j < |s| && s[i] == s[j]
    ensures |Elements(s)| < |s|
  {
    var init := s[..|s| - 1];
    assert s == init + [s[|s| - 1]];
    assert Elements(s) == Elements(init) + {s[|s| - 1]};
    if j == |s| - 1 {
      assert s[j] in Elements(init) by { assert init[i] == s[i]; }
      ElementsBound(init);
    } else {
      assert init[i] == s[i] && init[j] == s[j];
      ElementsBoundStrict(init, i, j);
    }
  }

  datatype Validation = Validation(
    totalLocations: nat,
    mappedLocations: nat,
    unmappedLocations: nat,
    mappingCompleteness: real,
    totalHydrophoneCodes: nat,
    duplicateAssignments: int,
    unmappedLocationNames: seq<string>)

  /** `validate_mapping` over a table: counts, completeness and the number of
      codes listed more than once. */
  function Validate(t: Table): (v: Validation)
    ensures v.mappedLocations + v.unmappedLocations == v.totalLocations == |t|
    ensures 0.0 <= v.mappingCompleteness <= 1.0
    ensures t == [] ==> v.mappingCompleteness == 0.0
    ensures v.duplicateAssignments >= 0
    ensures v.duplicateAssignments + v.totalHydrophoneCodes == |AllCodes(t)|
  {
    MappedUnmappedPartition(t);
    ElementsBound(AllCodes(t));
    var total := |t|;
    var mapped := |MappedNames(t)|;
    var codes := AllCodes(t);
    Validation(
      total,
      mapped,
      |UnmappedNames(t)|,
      Ratio(mapped, total),
      |Elements(codes)|,
      |codes| - |Elements(codes)|,
      UnmappedNames(t))
  }

  /** `part / whole`, or 0 when `whole` is 0. */
  function Ratio(part: nat, whole: nat): (r: real)
    requires part <= whole
    ensures 0.0 <= r <= 1.0
    ensures whole == 0 ==> r == 0.0
    ensures whole > 0 ==> r * whole as real == part as real
  {
    if whole > 0 then part as real / whole as real else 0.0
  }

  function ValidateMapping(): Validation {
    Validate(LocationMapping)
  }

  /** The CBCH codes are listed under three names, so the shipped table has
      duplicate assignments. */
  lemma ShippedHasDuplicates()
    ensures ValidateMapping().duplicateAssignments > 0
  {
    var rest := SaanichDdsEntries + NcDdsBracketEntries + OdpSiteEntries
      + NcDdsFallbackEntries + AdditionalEntries;
    assert LocationMapping == SogDdsEntries + rest;
    AllCodesAppend(SogDdsEntries, rest);
    var a := AllCodes(SogDdsEntries);
    var b := AllCodes(rest);
    assert a[4] == "CBCH.H1";
    assert rest[2] == NcDdsBracketEntries[1];
    AllCodesMembers(rest, "CBCH.H1");
    var j :| 0 <= j < |b| && b[j] == "CBCH.H1";
    assert (a + b)[|a| + j] == b[j];
    ElementsBoundStrict(a + b, 4, |a| + j);
  }
}
