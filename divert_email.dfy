/** Reading one divert notification (the current parser): the switch time
    and divert system from the subject, and the `name: status` pairs of the
    body's "New Switch Line-Up:" section; then translating location names
    into hydrophone location codes. */
module DivertEmail {
  import opened Text
  import opened Dict
  import opened Subject
  import LocationMappings

  const LineupHeader: string := "New Switch Line-Up:"

  /** A fetched message; a failed fetch has an empty subject. */
  datatype Message = Message(subject: string, body: string)

  datatype ParsedEmail = ParsedEmail(
    timestamp: Option<int>,
    system: Option<string>,
    locations: Assoc<string, string>,
    rawSubject: string,
    rawBody: string)

  // ---------------------------------------------------------------------
  // The line-up section

  /** A long line made mostly of `_` or `-` ends the line-up. */
  predicate IsSeparatorLine(line: string) {
    |line| > 20 && (Count(line, '_') > 10 || Count(line, '-') > 10)
  }

  /** Index of the first separator line, `|lines|` when there is none. */
  function FirstSeparator(lines: seq<string>): (k: nat)
    ensures k <= |lines|
    ensures forall j :: 0 <= j < k ==> !IsSeparatorLine(lines[j])
    ensures k < |lines| ==> IsSeparatorLine(lines[k])
  {
    if lines == [] then 0
    else if IsSeparatorLine(lines[0]) then 0
    else
      var k := FirstSeparator(lines[1..]);
      assert forall j :: 1 <= j < k + 1 ==> lines[j] == lines[1..][j - 1];
      1 + k
  }

  /** The lines after the header line, from the header's first occurrence
      up to the first separator. */
  function LineupLines(body: string): (ls: seq<string>)
    requires Contains(body, LineupHeader)
  {
    var start := Find(body, LineupHeader).value;
    var lines := Split(body[start..], '\n');
    var rest := lines[1..];
    rest[..FirstSeparator(rest)]
  }

  // ---------------------------------------------------------------------
  // The two patterns, `([A-Za-z0-9_\[\]\s]+):\s*(Bypass|Divert)` and
  // `(\[[0-9]+\]\s*[A-Za-z0-9_\s]+):\s*(Bypass|Divert)`, both matched
  // ignoring case

  datatype Pattern = NamePattern | BracketPattern

  predicate IsWordChar(c: char) {
    IsUpper(c) || IsLower(c) || IsDigit(c) || c == '_' || IsSpace(c)
  }

  predicate IsNameChar(c: char) {
    IsWordChar(c) || c == '[' || c == ']'
  }

  /** Length of the run of characters satisfying `p` that starts at `i`. */
  function Run(s: string, i: nat, p: char -> bool): (n: nat)
    ensures i + n <= |s| || n == 0
    ensures forall k :: i <= k < i + n ==> p(s[k])
    ensures i + n < |s| ==> !p(s[i + n])
    decreases |s| - i
  {
    if i < |s| && p(s[i]) then 1 + Run(s, i + 1, p) else 0
  }

  predicate IsStatusWord(w: string) {
    Lower(w) == "bypass" || Lower(w) == "divert"
  }

  datatype Match = Match(end: nat, name: string, status: string)

  /** The `:\s*(Bypass|Divert)` tail of a match whose name ends at `q`. */
  function StatusTail(s: string, p: nat, q: nat): (m: Option<Match>)
    requires p < q <= |s|
    ensures m.Some? ==> q < m.value.end <= |s| && IsStatusWord(m.value.status)
                        && m.value.name == Strip(s[p..q])
  {
    if q < |s| && s[q] == ':' then
      var k := q + 1 + Run(s, q + 1, IsSpace);
      if k + 6 <= |s| && IsStatusWord(s[k..k + 6]) then Some(Match(k + 6, Strip(s[p..q]), s[k..k + 6]))
      else None
    else None
  }

  /** The match that starts exactly at `p`, if any. A name is a maximal run
      of its pattern's characters, because `:` is not one of them. */
  function MatchAt(s: string, p: nat, pat: Pattern): (m: Option<Match>)
    ensures m.Some? ==> p < m.value.end <= |s| && IsStatusWord(m.value.status)
  {
    if p >= |s| then None
    else match pat
      case NamePattern =>
        if IsNameChar(s[p]) then StatusTail(s, p, p + Run(s, p, IsNameChar)) else None
      case BracketPattern =>
        if s[p] == '[' then
          var r := p + 1 + Run(s, p + 1, IsDigit);
          if r > p + 1 && r < |s| && s[r] == ']' then
            var q := r + 1 + Run(s, r + 1, IsWordChar);
            if q > r + 1 then StatusTail(s, p, q) else None
          else None
        else None
  }

  /** `re.finditer`: the leftmost match at or after `pos`, then the matches
      after its end, as `(stripped name, status as written)` pairs. */
  function Matches(s: string, pos: nat, pat: Pattern): (ms: seq<(string, string)>)
    ensures AllStatusWords(ms)
    decreases |s| - pos
  {
    if pos >= |s| then []
    else match MatchAt(s, pos, pat)
      case Some(m) => [(m.name, m.status)] + Matches(s, m.end, pat)
      case None => Matches(s, pos + 1, pat)
  }

  /** Every pair the line-up section yields, in the order they are stored:
      all matches of the first pattern, then all of the second. */
  function LineupPairs(body: string): seq<(string, string)>
    requires Contains(body, LineupHeader)
  {
    var text := Join(LineupLines(body), "\n");
    Matches(text, 0, NamePattern) + Matches(text, 0, BracketPattern)
  }

  /** `parse_divert_email` as a function of the subject and body. */
  function ParseEmail(subject: string, body: string): (e: ParsedEmail)
    ensures KeysUnique(e.locations)
  {
    ParsedEmail(ParseTimestamp(subject), ExtractSystem(subject),
                if Contains(body, LineupHeader) then PutAll([], LineupPairs(body)) else [],
                subject, body)
  }

  /** A parsed notification holds the subject's time and system; without
      the header it names no location; otherwise each name has the status
      of the last match naming it, and only matched names appear. */
  lemma ParseEmailContents(subject: string, body: string)
    ensures ParseEmail(subject, body).timestamp == ParseTimestamp(subject)
    ensures ParseEmail(subject, body).system == ExtractSystem(subject)
    ensures !Contains(body, LineupHeader) ==> ParseEmail(subject, body).locations == []
    ensures Contains(body, LineupHeader) ==>
              forall name :: Lookup(ParseEmail(subject, body).locations, name) == LastValue(LineupPairs(body), name)
  {
    if Contains(body, LineupHeader) {
      var ps := LineupPairs(body);
      forall name ensures Lookup(PutAll([], ps), name) == LastValue(ps, name) {
        PutAllLookup([], ps, name);
      }
    }
  }

  predicate AllStatusWords(ps: seq<(string, string)>) {
    forall i :: 0 <= i < |ps| ==> IsStatusWord(ps[i].1)
  }

  lemma AllStatusWordsAppend(a: seq<(string, string)>, b: seq<(string, string)>)
    requires AllStatusWords(a) && AllStatusWords(b)
    ensures AllStatusWords(a + b)
  {
    assert forall i :: |a| <= i < |a + b| ==> (a + b)[i] == b[i - |a|];
  }

  /** Every stored status is `Bypass` or `Divert` up to letter case. */
  lemma ParsedStatusesAreStatusWords(subject: string, body: string, name: string)
    requires Lookup(ParseEmail(subject, body).locations, name).Some?
    ensures IsStatusWord(Lookup(ParseEmail(subject, body).locations, name).value)
  {
    var e := ParseEmail(subject, body);
    ParseEmailContents(subject, body);
    if Contains(body, LineupHeader) {
      var text := Join(LineupLines(body), "\n");
      AllStatusWordsAppend(Matches(text, 0, NamePattern), Matches(text, 0, BracketPattern));
      var ps := LineupPairs(body);
      var v := LastValue(ps, name);
      assert Lookup(e.locations, name) == v;
      var i :| 0 <= i < |ps| && ps[i] == (name, v.value);
    }
  }

  /** The lines after the header line, collected one by one until a
      separator line. */
  method CollectLineupLines(body: string) returns (relevant: seq<string>)
    requires Contains(body, LineupHeader)
    ensures relevant == LineupLines(body)
  {
    var start := Find(body, LineupHeader).value;
    var lines := Split(body[start..], '\n');
    var rest := lines[1..];
    relevant := [];
    var i := 0;
    while i < |rest|
      invariant 0 <= i <= |rest|
      invariant relevant == rest[..i]
      invariant forall j :: 0 <= j < i ==> !IsSeparatorLine(rest[j])
    {
      if IsSeparatorLine(rest[i]) {
        break;
      }
      relevant := relevant + [rest[i]];
      i := i + 1;
    }
    assert i == FirstSeparator(rest);
  }

  /** Assigns each match's status to its name, in match order. */
  method StoreMatches(locations: Assoc<string, string>, ms: seq<(string, string)>)
    returns (r: Assoc<string, string>)
    requires KeysUnique(locations)
    ensures r == PutAll(locations, ms)
  {
    r := locations;
    var k := 0;
    while k < |ms|
      invariant 0 <= k <= |ms|
      invariant KeysUnique(r) && r == PutAll(locations, ms[..k])
    {
      assert ms[..k + 1][..k] == ms[..k];
      r := Put(r, ms[k].0, ms[k].1);
      k := k + 1;
    }
    assert ms[..k] == ms;
  }

  /** `parse_divert_email`: the body is read line by line up to the first
      separator, then both patterns are applied to the joined text, each
      match assigning its name's status. */
  method ParseDivertEmail(subject: string, body: string) returns (e: ParsedEmail)
    ensures e == ParseEmail(subject, body)
  {
    var locations: Assoc<string, string> := [];
    if Contains(body, LineupHeader) {
      var relevant := CollectLineupLines(body);
      var text := Join(relevant, "\n");
      var m1 := Matches(text, 0, NamePattern);
      var m2 := Matches(text, 0, BracketPattern);
      locations := StoreMatches(locations, m1);
      locations := StoreMatches(locations, m2);
      PutAllAppend([], m1, m2);
    }
    e := ParsedEmail(ParseTimestamp(subject), ExtractSystem(subject), locations, subject, body);
  }

  // ---------------------------------------------------------------------
  // Location names to hydrophone codes

  type Table = LocationMappings.Table

  /** One `(code, status)` pair per code, in list order. */
  function CodePairs(codes: seq<string>, status: string): (ps: seq<(string, string)>)
    ensures |ps| == |codes|
    ensures forall i :: 0 <= i < |codes| ==> ps[i] == (codes[i], status)
  {
    seq(|codes|, i requires 0 <= i < |codes| => (codes[i], status))
  }

  /** The hydrophone statuses the named locations give, each name's codes
      assigned its status in turn. */
  function HydrophoneStatus(table: Table, locations: Assoc<string, string>): (hs: Assoc<string, string>)
    ensures KeysUnique(hs)
  {
    if locations == [] then []
    else
      var last := locations[|locations| - 1];
      PutAll(HydrophoneStatus(table, locations[..|locations| - 1]),
             CodePairs(LocationMappings.Get(table, last.0), last.1))
  }

  /** The status of the last listed name whose codes include `code`. */
  function LastStatusFor(table: Table, locations: Assoc<string, string>, code: string): (r: Option<string>)
    ensures r.None? <==> forall i :: 0 <= i < |locations| ==>
                           code !in LocationMappings.Get(table, locations[i].0)
  {
    if locations == [] then None
    else
      var n := |locations| - 1;
      if code in LocationMappings.Get(table, locations[n].0) then Some(locations[n].1)
      else
        assert forall i :: 0 <= i < n ==> locations[..n][i] == locations[i];
        LastStatusFor(table, locations[..n], code)
  }

  lemma LastValueCodePairs(codes: seq<string>, status: string, code: string)
    ensures LastValue(CodePairs(codes, status), code) == (if code in codes then Some(status) else None)
  {
    var ps := CodePairs(codes, status);
    if code in codes {
      var i :| 0 <= i < |codes| && codes[i] == code;
      assert ps[i].0 == code;
    }
  }

  /** Each code ends with the status of the last name that maps to it; a
      code no listed name maps to gets no status at all. */
  lemma {:induction false} HydrophoneStatusLookup(table: Table, locations: Assoc<string, string>, code: string)
    ensures Lookup(HydrophoneStatus(table, locations), code) == LastStatusFor(table, locations, code)
  {
    if locations != [] {
      var n := |locations| - 1;
      var last := locations[n];
      HydrophoneStatusLookup(table, locations[..n], code);
      var codes := LocationMappings.Get(table, last.0);
      PutAllLookup(HydrophoneStatus(table, locations[..n]), CodePairs(codes, last.1), code);
      LastValueCodePairs(codes, last.1, code);
    }
  }

  /** `map_locations_to_hydrophones`: each name's codes, looked up in the
      location table (`table.get(name, [])`), are assigned that name's
      status. */
  method MapLocationsToHydrophones(table: Table, locations: Assoc<string, string>) returns (hs: Assoc<string, string>)
    ensures hs == HydrophoneStatus(table, locations)
  {
    hs := [];
    var i := 0;
    while i < |locations|
      invariant 0 <= i <= |locations|
      invariant hs == HydrophoneStatus(table, locations[..i])
    {
      assert locations[..i + 1][..i] == locations[..i];
      hs := AssignStatus(hs, LocationMappings.Get(table, locations[i].0), locations[i].1);
      i := i + 1;
    }
    assert locations[..i] == locations;
  }

  /** The inner loop: every code of one name is assigned its status. */
  method AssignStatus(hs: Assoc<string, string>, codes: seq<string>, status: string) returns (r: Assoc<string, string>)
    requires KeysUnique(hs)
    ensures r == PutAll(hs, CodePairs(codes, status))
  {
    var ps := CodePairs(codes, status);
    r := hs;
    var j := 0;
    while j < |codes|
      invariant 0 <= j <= |codes|
      invariant KeysUnique(r) && r == PutAll(hs, ps[..j])
    {
      assert ps[..j + 1][..j] == ps[..j];
      r := Put(r, codes[j], status);
      j := j + 1;
    }
    assert ps[..j] == ps;
  }

  lemma ThreeNamesUnfold(t: Table, x1: (string, string), x2: (string, string), x3: (string, string))
    ensures HydrophoneStatus(t, [x1, x2, x3]) ==
            PutAll([], CodePairs(LocationMappings.Get(t, x1.0), x1.1)
                       + CodePairs(LocationMappings.Get(t, x2.0), x2.1)
                       + CodePairs(LocationMappings.Get(t, x3.0), x3.1))
  {
    var locs := [x1, x2, x3];
    var p1 := CodePairs(LocationMappings.Get(t, x1.0), x1.1);
    var p2 := CodePairs(LocationMappings.Get(t, x2.0), x2.1);
    var p3 := CodePairs(LocationMappings.Get(t, x3.0), x3.1);
    assert locs[..2][..1] == [x1] && locs[..2] == [x1, x2] && locs[..1] == [x1];
    assert [x1][..0] == [];
    assert HydrophoneStatus(t, [x1]) == PutAll([], p1);
    assert HydrophoneStatus(t, [x1, x2]) == PutAll(PutAll([], p1), p2);
    PutAllAppend([], p1, p2);
    PutAllAppend([], p1 + p2, p3);
  }

  lemma TwelveDistinctKeys(s1: string, s2: string, s3: string)
    ensures var ps := CodePairs(["CBCH.H1", "CBCH.H2", "CBCH.H3", "CBCH.H4"], s1)
                      + CodePairs(["CQSH.H1", "CQSH.H2", "CQSH.H3", "CQSH.H4"], s2)
                      + CodePairs(["ECHO3.H1", "ECHO3.H2", "ECHO3.H3", "ECHO3.H4"], s3);
            |PutAll([], ps)| == 12
  {
    var ps := CodePairs(["CBCH.H1", "CBCH.H2", "CBCH.H3", "CBCH.H4"], s1)
              + CodePairs(["CQSH.H1", "CQSH.H2", "CQSH.H3", "CQSH.H4"], s2)
              + CodePairs(["ECHO3.H1", "ECHO3.H2", "ECHO3.H3", "ECHO3.H4"], s3);
    var keys := ["CBCH.H1", "CBCH.H2", "CBCH.H3", "CBCH.H4",
                 "CQSH.H1", "CQSH.H2", "CQSH.H3", "CQSH.H4",
                 "ECHO3.H1", "ECHO3.H2", "ECHO3.H3", "ECHO3.H4"];
    assert forall i :: 0 <= i < 12 ==> ps[i].0 == keys[i];
    assert forall i, j :: 0 <= i < j < 12 ==> keys[i] != keys[j];
    PutAllFresh([], ps);
  }

  lemma ShippedExampleCodes()
    ensures LocationMappings.Get(LocationMappings.LocationMapping, "ODP 1027")
            == ["CBCH.H1", "CBCH.H2", "CBCH.H3", "CBCH.H4"]
    ensures LocationMappings.Get(LocationMappings.LocationMapping, "ODP 1364A")
            == ["CQSH.H1", "CQSH.H2", "CQSH.H3", "CQSH.H4"]
    ensures LocationMappings.Get(LocationMappings.LocationMapping, "SoG_East")
            == ["ECHO3.H1", "ECHO3.H2", "ECHO3.H3", "ECHO3.H4"]
  {
    var t := LocationMappings.LocationMapping;
    LocationMappings.ShippedKeysDistinct();
    assert t[12].0 == "ODP 1027" && t[9].0 == "ODP 1364A" && t[0].0 == "SoG_East";
  }

  /** Two ODP sites and SoG East name twelve distinct hydrophones. */
  lemma ShippedMappingExample(s1: string, s2: string, s3: string)
    ensures |HydrophoneStatus(LocationMappings.LocationMapping,
                              [("ODP 1027", s1), ("ODP 1364A", s2), ("SoG_East", s3)])| == 12
  {
    ShippedExampleCodes();
    ThreeNamesUnfold(LocationMappings.LocationMapping, ("ODP 1027", s1), ("ODP 1364A", s2), ("SoG_East", s3));
    TwelveDistinctKeys(s1, s2, s3);
  }
}
