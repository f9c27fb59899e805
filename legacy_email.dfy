/** Reading one divert notification the way the legacy parser does: the
    subject is read as by the current parser, but the body is read line by
    line, each stripped line of the line-up section recorded only when the
    whole line has the form `name: Divert` or `name: Bypass`. */
module LegacyEmail {
  import opened Text
  import opened Dict
  import opened Subject
  import LocationMappings
  import DivertEmail

  type Table = LocationMappings.Table
  type ParsedEmail = DivertEmail.ParsedEmail

  const LineupHeader: string := DivertEmail.LineupHeader

  predicate IsStatusWord(w: string) {
    w == "Divert" || w == "Bypass"
  }

  // ---------------------------------------------------------------------
  // One line

  /** A line that ends the line-up section: a rule of `-`, `_` or `=`, a
      mailing-list footer, or a line with more than 20 `_` or `-`. */
  predicate IsStopLine(line: string) {
    StartsWith(line, "---") || StartsWith(line, "___") || StartsWith(line, "===")
    || Contains(Lower(line), "mailing list")
    || Count(line, '_') > 20 || Count(line, '-') > 20
  }

  /** The first pattern, `^([^:]+):\s*(Divert|Bypass)$`, on a stripped line:
      the name is the non-empty text before the first colon, stripped, and
      everything after the colon is blanks and then exactly the status. */
  function LineMatch(line: string): (m: Option<(string, string)>)
    ensures m.Some? ==> IsStatusWord(m.value.1)
  {
    match IndexOfChar(line, ':')
    case None => None
    case Some(c) => ReadAt(line, c)
  }

  /** What the first pattern reads when the first colon is at `c`. */
  function ReadAt(line: string, c: nat): (m: Option<(string, string)>)
    requires c < |line|
    ensures m.Some? ==> IsStatusWord(m.value.1)
  {
    var w := LStripSet(line[c + 1..], Whitespace);
    if c >= 1 && IsStatusWord(w) then Some((Strip(line[..c]), w)) else None
  }

  /** The second pattern, `^\[\d+\]\s*([^:]+):\s*(Divert|Bypass)$`, with the
      closing bracket at `d` and the colon at `c`. */
  predicate BracketMatchAt(line: string, d: nat, c: nat) {
    2 <= d && d + 2 <= c < |line|
    && line[0] == '[' && (forall i :: 1 <= i < d ==> IsDigit(line[i])) && line[d] == ']'
    && (forall i :: d < i < c ==> line[i] != ':') && line[c] == ':'
    && IsStatusWord(LStripSet(line[c + 1..], Whitespace))
  }

  predicate IsWordChar(c: char) {
    IsUpper(c) || IsLower(c) || IsDigit(c) || c == '_'
  }

  /** The third pattern, `^(\w+(?:_\w+)*):\s*(Divert|Bypass)$`, with the
      colon at `c` (a run of word characters before it). */
  predicate WordMatchAt(line: string, c: nat) {
    1 <= c < |line|
    && (forall i :: 0 <= i < c ==> IsWordChar(line[i])) && line[c] == ':'
    && IsStatusWord(LStripSet(line[c + 1..], Whitespace))
  }

  /** The first colon of a line is at `c` when none comes before it. */
  lemma FirstColon(line: string, c: nat)
    requires c < |line| && line[c] == ':' && forall i :: 0 <= i < c ==> line[i] != ':'
    ensures IndexOfChar(line, ':') == Some(c)
  {
    assert line[c] in line;
  }

  /** A stripped piece that starts with a non-blank keeps that character. */
  lemma StripKeepsFirst(s: string)
    requires s != [] && !IsSpace(s[0])
    ensures Strip(s) != [] && Strip(s)[0] == s[0]
  {
    WhitespaceIsSpace(s[0]);
    var l := LStripSet(s, Whitespace);
    assert l == s;
    assert l[0] !in Whitespace;
  }

  /** Stripping a piece with non-blank ends changes nothing. */
  lemma StripNonBlankEnds(s: string)
    requires s != [] && !IsSpace(s[0]) && !IsSpace(s[|s| - 1])
    ensures Strip(s) == s
  {
    WhitespaceIsSpace(s[0]);
    WhitespaceIsSpace(s[|s| - 1]);
  }

  /** Leading blanks before a word are dropped by `lstrip`. */
  lemma {:induction false} BlanksThenWord(blanks: string, w: string)
    requires forall i :: 0 <= i < |blanks| ==> IsSpace(blanks[i])
    requires w != [] && !IsSpace(w[0])
    ensures LStripSet(blanks + w, Whitespace) == w
  {
    WhitespaceIsSpace(w[0]);
    if blanks != [] {
      WhitespaceIsSpace(blanks[0]);
      assert (blanks + w)[1..] == blanks[1..] + w;
      BlanksThenWord(blanks[1..], w);
    } else {
      assert blanks + w == w;
    }
  }

  /** A line of the second pattern is already taken by the first, which
      keeps the `[n]` prefix in the name: the second pattern never decides. */
  lemma BracketLineKeepsPrefix(line: string, d: nat, c: nat)
    requires BracketMatchAt(line, d, c)
    ensures LineMatch(line) == Some((Strip(line[..c]), LStripSet(line[c + 1..], Whitespace)))
    ensures Strip(line[..c]) != [] && Strip(line[..c])[0] == '['
  {
    BracketColonFree(line, d, c);
    FirstColon(line, c);
    ReadAtStatus(line, c);
    var name := line[..c];
    assert name[0] == '[';
    StripKeepsFirst(name);
  }

  /** A status word after the colon: the first pattern reads the line. */
  lemma ReadAtStatus(line: string, c: nat)
    requires 1 <= c < |line| && IsStatusWord(LStripSet(line[c + 1..], Whitespace))
    ensures ReadAt(line, c) == Some((Strip(line[..c]), LStripSet(line[c + 1..], Whitespace)))
  {
  }

  /** The bracket, the digits, the bracket and the name before the colon
      hold no colon. */
  lemma BracketColonFree(line: string, d: nat, c: nat)
    requires BracketMatchAt(line, d, c)
    ensures forall i :: 0 <= i < c ==> line[i] != ':'
  {
    forall i | 0 <= i < c ensures line[i] != ':' {
      if 1 <= i < d {
        assert IsDigit(line[i]);
      }
    }
  }

  /** A line of the third pattern is already taken by the first, with the
      same name (the word run itself): the third pattern never decides. */
  lemma WordLineSameName(line: string, c: nat)
    requires WordMatchAt(line, c)
    ensures LineMatch(line) == Some((line[..c], LStripSet(line[c + 1..], Whitespace)))
  {
    FirstColon(line, c);
    ReadAtStatus(line, c);
    assert IsWordChar(line[0]) && IsWordChar(line[c - 1]);
    assert !IsSpace(line[..c][0]) && !IsSpace(line[..c][c - 1]);
    StripNonBlankEnds(line[..c]);
  }

  /** Conversely, every line `name: status` with a colon-free name and
      only blanks after the colon is read, the name stripped. */
  lemma WellFormedLineRead(name: string, blanks: string, status: string)
    requires name != [] && ':' !in name
    requires forall i :: 0 <= i < |blanks| ==> IsSpace(blanks[i])
    requires IsStatusWord(status)
    ensures LineMatch(name + ":" + blanks + status) == Some((Strip(name), status))
  {
    var line := name + ":" + blanks + status;
    var c := |name|;
    assert line[c] == ':';
    assert forall i :: 0 <= i < c ==> line[i] == name[i];
    FirstColon(line, c);
    assert line[..c] == name;
    assert line[c + 1..] == blanks + status;
    BlanksThenWord(blanks, status);
  }

  // ---------------------------------------------------------------------
  // The line-up section

  /** What the line loop makes of one stripped line, its tests taken in
      the loop's order: the header, a stop line, a blank line, or a line
      the pattern may read. */
  datatype LineKind = HeaderLine | StopLine | BlankLine | Content(m: Option<(string, string)>)

  function Classify(line: string): LineKind {
    if Contains(line, LineupHeader) then HeaderLine
    else if IsStopLine(line) then StopLine
    else if line == [] then BlankLine
    else Content(LineMatch(line))
  }

  lemma ClassifyContent(line: string)
    requires Classify(line).Content?
    ensures Classify(line).m == LineMatch(line)
  {
  }

  /** Each line stripped and classified. */
  function Kinds(lines: seq<string>): (ks: seq<LineKind>)
    ensures |ks| == |lines|
  {
    if lines == [] then [] else [Classify(Strip(lines[0]))] + Kinds(lines[1..])
  }

  lemma {:induction false} KindAt(lines: seq<string>, i: nat)
    requires i < |lines|
    ensures Kinds(lines)[i] == Classify(Strip(lines[i]))
  {
    if i > 0 {
      KindAt(lines[1..], i - 1);
    }
  }

  /** The body split into lines, each stripped and classified. */
  function LineKinds(body: string): (ks: seq<LineKind>) {
    Kinds(Split(body, '\n'))
  }

  /** The pairs recorded from the classified lines: a header line opens
      the section; in the section a stop line ends the scan, blank lines
      are skipped and every line the pattern reads is recorded. Before the
      section, every other line is skipped. */
  function SectionPairs(ks: seq<LineKind>, inSection: bool): (ps: seq<(string, string)>)
  {
    if ks == [] then []
    else if ks[0].HeaderLine? then SectionPairs(ks[1..], true)
    else if !inSection then SectionPairs(ks[1..], false)
    else if ks[0].StopLine? then []
    else if ks[0].BlankLine? || ks[0].m.None? then SectionPairs(ks[1..], true)
    else [ks[0].m.value] + SectionPairs(ks[1..], true)
  }

  /** One step of the scan, at line `i`. */
  lemma SectionStep(ks: seq<LineKind>, i: nat, inSection: bool)
    requires i < |ks|
    ensures SectionPairs(ks[i..], inSection) ==
              if ks[i].HeaderLine? then SectionPairs(ks[i + 1..], true)
              else if !inSection then SectionPairs(ks[i + 1..], false)
              else if ks[i].StopLine? then []
              else if ks[i].BlankLine? || ks[i].m.None? then SectionPairs(ks[i + 1..], true)
              else [ks[i].m.value] + SectionPairs(ks[i + 1..], true)
  {
    assert ks[i..][0] == ks[i];
    assert ks[i..][1..] == ks[i + 1..];
  }

  /** `parse_divert_email` of the legacy parser. */
  function ParseEmail(subject: string, body: string): (e: ParsedEmail)
    ensures KeysUnique(e.locations)
  {
    DivertEmail.ParsedEmail(
      ParseTimestamp(subject), ExtractSystem(subject),
      if Contains(body, LineupHeader) then PutAll([], SectionPairs(LineKinds(body), false)) else [],
      subject, body)
  }

  /** Every recorded pair is what the pattern reads from one whole
      (stripped) line. */
  lemma {:induction false} PairsFromWholeLines(ks: seq<LineKind>, inSection: bool, p: (string, string))
    requires p in SectionPairs(ks, inSection)
    ensures exists j :: 0 <= j < |ks| && ks[j] == Content(Some(p))
  {
    var open := ks[0].HeaderLine? || inSection;
    if p in SectionPairs(ks[1..], open) {
      PairsFromWholeLines(ks[1..], open, p);
      var j :| 0 <= j < |ks[1..]| && ks[1..][j] == Content(Some(p));
      assert ks[j + 1] == ks[1..][j];
    } else {
      assert ks[0] == Content(Some(p));
    }
  }

  /** The subject is read exactly as by the current parser; the body only
      when it holds the header, each name getting the status of its last
      recorded line; every status is `Divert` or `Bypass` and comes from a
      whole line of the body. */
  lemma ParseEmailContents(subject: string, body: string, name: string)
    ensures var e := ParseEmail(subject, body);
            var cur := DivertEmail.ParseEmail(subject, body);
            e.timestamp == cur.timestamp && e.system == cur.system
            && (!Contains(body, LineupHeader) ==> e.locations == [])
            && (Contains(body, LineupHeader) ==>
                  Lookup(e.locations, name) == LastValue(SectionPairs(LineKinds(body), false), name))
  {
    if Contains(body, LineupHeader) {
      PutAllLookup([], SectionPairs(LineKinds(body), false), name);
    }
  }

  /** Every location read carries a status word, and comes from one whole
      line of the body that reads as that name and status. */
  lemma ParseEmailLocationFromLine(subject: string, body: string, name: string)
    ensures var e := ParseEmail(subject, body);
            Lookup(e.locations, name).Some? ==>
              IsStatusWord(Lookup(e.locations, name).value)
              && exists j :: 0 <= j < |Split(body, '\n')|
                             && LineMatch(Strip(Split(body, '\n')[j])) == Some((name, Lookup(e.locations, name).value))
  {
    if Contains(body, LineupHeader) {
      var ks := LineKinds(body);
      var ps := SectionPairs(ks, false);
      PutAllLookup([], ps, name);
      var v := LastValue(ps, name);
      if v.Some? {
        PairsFromWholeLines(ks, false, (name, v.value));
        var j :| 0 <= j < |ks| && ks[j] == Content(Some((name, v.value)));
        var line := Strip(Split(body, '\n')[j]);
        KindAt(Split(body, '\n'), j);
        assert Classify(line) == Content(Some((name, v.value)));
        ClassifyContent(line);
      }
    }
  }

  /** Everything from a stop line on is ignored once the section is open,
      later headers included. */
  lemma {:induction false} StopLineEndsSection(ks: seq<LineKind>, k: nat)
    requires k < |ks| && ks[k] == StopLine
    ensures SectionPairs(ks, true) == SectionPairs(ks[..k], true)
  {
    if k > 0 {
      StopLineEndsSection(ks[1..], k - 1);
      assert ks[..k][1..] == ks[1..][..k - 1];
      assert ks[..k][0] == ks[0];
    }
  }

  /** Lines before the first header are ignored, stop lines included. */
  lemma {:induction false} LinesBeforeHeaderIgnored(ks: seq<LineKind>, k: nat)
    requires k <= |ks| && forall h :: 0 <= h < k ==> !ks[h].HeaderLine?
    ensures SectionPairs(ks, false) == SectionPairs(ks[k..], false)
  {
    if k > 0 {
      LinesBeforeHeaderIgnored(ks[1..], k - 1);
      assert ks[1..][k - 1..] == ks[k..];
    }
  }

  /** The line loop of `parse_divert_email`, each stripped line classified
      by the loop's tests in order (`Classify`). Only the first pattern is
      tried, since a line either later pattern accepts is accepted by it
      (`BracketLineKeepsPrefix`, `WordLineSameName`). */
  method ScanLines(lines: seq<string>) returns (locations: Assoc<string, string>)
    ensures locations == PutAll([], SectionPairs(Kinds(lines), false))
  {
    locations := [];
    ghost var ks := Kinds(lines);
    var inSection := false;
    ghost var seen: seq<(string, string)> := [];
    var i := 0;
    while i < |lines|
      invariant 0 <= i <= |lines|
      invariant locations == PutAll([], seen)
      invariant SectionPairs(ks, false) == seen + SectionPairs(ks[i..], inSection)
    {
      var kind := Classify(Strip(lines[i]));
      KindAt(lines, i);
      if inSection && !kind.HeaderLine? && kind.StopLine? {
        SectionStep(ks, i, inSection);
        assert seen + [] == seen;
        break;
      }
      ScanStep(ks, i, inSection, seen);
      if kind.HeaderLine? {
        inSection := true;
      } else if inSection && kind.Content? && kind.m.Some? {
        var p := kind.m.value;
        PutAllSnoc([], seen, p);
        locations := Put(locations, p.0, p.1);
        seen := seen + [p];
      }
      i := i + 1;
    }
    if i == |lines| {
      assert ks[i..] == [];
      assert seen + [] == seen;
    }
  }

  /** One line of the scan, when it does not end it: what is recorded and
      whether the section is open afterwards. */
  lemma ScanStep(ks: seq<LineKind>, i: nat, inSection: bool, seen: seq<(string, string)>)
    requires i < |ks| && !(inSection && !ks[i].HeaderLine? && ks[i].StopLine?)
    ensures var k := ks[i];
            var recorded := if inSection && !k.HeaderLine? && k.Content? && k.m.Some? then [k.m.value] else [];
            seen + SectionPairs(ks[i..], inSection) == (seen + recorded) + SectionPairs(ks[i + 1..], inSection || k.HeaderLine?)
  {
    SectionStep(ks, i, inSection);
    var k := ks[i];
    var rest := SectionPairs(ks[i + 1..], inSection || k.HeaderLine?);
    if inSection && !k.HeaderLine? && k.Content? && k.m.Some? {
      assert seen + ([k.m.value] + rest) == (seen + [k.m.value]) + rest;
    } else {
      assert seen + [] == seen;
    }
  }

  /** `parse_divert_email` of the legacy parser. */
  method ParseDivertEmail(subject: string, body: string) returns (e: ParsedEmail)
    ensures e == ParseEmail(subject, body)
  {
    var locations: Assoc<string, string> := [];
    if Contains(body, LineupHeader) {
      locations := ScanLines(Split(body, '\n'));
    }
    e := DivertEmail.ParsedEmail(ParseTimestamp(subject), ExtractSystem(subject), locations, subject, body);
  }

  // ---------------------------------------------------------------------
  // Location names to hydrophone codes

  /** `map_locations_to_hydrophones` of the legacy parser: only names of the
      table are looked at (the others are reported and skipped); each of a
      name's codes gets its status. It gives the same map as the current
      parser's mapping. */
  method MapLocationsToHydrophones(table: Table, locations: Assoc<string, string>) returns (hs: Assoc<string, string>)
    ensures hs == DivertEmail.HydrophoneStatus(table, locations)
  {
    hs := [];
    var i := 0;
    while i < |locations|
      invariant 0 <= i <= |locations|
      invariant hs == DivertEmail.HydrophoneStatus(table, locations[..i])
    {
      assert locations[..i + 1][..i] == locations[..i];
      var name := locations[i].0;
      var status := locations[i].1;
      var codes := LocationMappings.Get(table, name);
      var ps := DivertEmail.CodePairs(codes, status);
      if LocationMappings.IsKey(table, name) {
        var j := 0;
        while j < |codes|
          invariant 0 <= j <= |codes|
          invariant KeysUnique(hs)
          invariant hs == PutAll(DivertEmail.HydrophoneStatus(table, locations[..i]), ps[..j])
        {
          assert ps[..j + 1][..j] == ps[..j];
          hs := Put(hs, codes[j], status);
          j := j + 1;
        }
        assert ps[..j] == ps;
      } else {
        assert ps == [];
        assert DivertEmail.HydrophoneStatus(table, locations[..i + 1]) == PutAll(DivertEmail.HydrophoneStatus(table, locations[..i]), ps);
      }
      i := i + 1;
    }
    assert locations[..i] == locations;
  }
}
