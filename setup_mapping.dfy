/** The location-mapping setup tool: reads the location codes shown on the
    generated dashboard, compares the location names seen in divert emails
    with the current name-to-code table, and proposes corrections. The
    dashboard file's text, the email location names and the table are
    inputs; the console report is modelled as the data it prints. */
module SetupMapping {
  import opened Text
  import opened LocationMappings

  // ---------------------------------------------------------------------------
  // Location codes on the dashboard: <span>Site</span>CODE</span>
  // ---------------------------------------------------------------------------

  const SiteOpen: string := "<span>Site</span>"
  const SpanClose: string := "</span>"

  /** `code` sits between the site marker at `i` and a closing tag. */
  predicate SiteAt(s: string, code: string, i: nat) {
    OccursAt(s, SiteOpen, i) && OccursAt(s, code, i + |SiteOpen|) && OccursAt(s, SpanClose, i + |SiteOpen| + |code|)
  }

  /** The code the pattern captures when a match starts at `i`. A longer
      code run is never followed by `<` inside the run, so the greedy run is
      the only candidate. */
  function SiteMatchAt(s: string, i: nat): (r: Option<string>)
    requires i <= |s|
    ensures r.Some? ==> r.value != [] && SiteAt(s, r.value, i)
                        && forall k :: 0 <= k < |r.value| ==> CodeChar(r.value[k])
  {
    if !OccursAt(s, SiteOpen, i) then None
    else
      var start := i + |SiteOpen|;
      var n := CodeRun(s, start);
      if n > 0 && OccursAt(s, SpanClose, start + n) then Some(s[start..start + n]) else None
  }

  /** `re.findall` of the site pattern from position `i`: matches do not
      overlap, and scanning resumes after each match. */
  function FindAllFrom(s: string, i: nat): (r: seq<string>)
    requires i <= |s|
    decreases |s| - i
  {
    if i == |s| then []
    else match SiteMatchAt(s, i)
      case None => FindAllFrom(s, i + 1)
      case Some(code) => [code] + FindAllFrom(s, i + |SiteOpen| + |code| + |SpanClose|)
  }

  /** A captured code is a non-empty run of `[A-Z0-9.]` that sits between
      the site marker and a closing tag in the text. */
  predicate SiteCode(s: string, code: string) {
    code != [] && (forall k :: 0 <= k < |code| ==> CodeChar(code[k]))
    && exists i :: 0 <= i <= |s| && SiteAt(s, code, i)
  }

  lemma {:induction false} FindAllFromCodes(s: string, i: nat)
    requires i <= |s|
    decreases |s| - i
    ensures AllSiteCodes(s, FindAllFrom(s, i))
  {
    if i < |s| {
      match SiteMatchAt(s, i)
      case None => FindAllFromCodes(s, i + 1);
      case Some(code) =>
        var j := i + |SiteOpen| + |code| + |SpanClose|;
        FindAllFromCodes(s, j);
        SiteMatchCode(s, i);
        AllSiteCodesCons(s, code, FindAllFrom(s, j));
    }
  }

  predicate AllSiteCodes(s: string, cs: seq<string>) {
    forall c :: c in cs ==> SiteCode(s, c)
  }

  lemma AllSiteCodesCons(s: string, code: string, cs: seq<string>)
    requires SiteCode(s, code) && AllSiteCodes(s, cs)
    ensures AllSiteCodes(s, [code] + cs)
  {
  }

  lemma SiteMatchCode(s: string, i: nat)
    requires i <= |s| && SiteMatchAt(s, i).Some?
    ensures SiteCode(s, SiteMatchAt(s, i).value)
  {
    var code := SiteMatchAt(s, i).value;
    assert SiteAt(s, code, i);
  }

  /** `extract_hydrophone_locations`: the captured codes, sorted and without
      duplicates; no codes when the dashboard file cannot be read. */
  function ExtractHydrophoneLocations(html: Option<string>): seq<string> {
    match html
    case None => []
    case Some(s) => SortedDistinct(FindAllFrom(s, 0))
  }

  /** The result is strictly increasing, holds exactly the captured codes,
      and every one of them is a well-formed code from the page. */
  lemma ExtractShape(html: Option<string>)
    ensures StrictlySorted(ExtractHydrophoneLocations(html))
    ensures html.None? ==> ExtractHydrophoneLocations(html) == []
    ensures html.Some? ==> forall c :: c in ExtractHydrophoneLocations(html) <==> c in FindAllFrom(html.value, 0)
    ensures html.Some? ==> forall c :: c in ExtractHydrophoneLocations(html) ==> SiteCode(html.value, c)
  {
    if html.Some? {
      FindAllFromCodes(html.value, 0);
    }
  }

  // ---------------------------------------------------------------------------
  // The analysis in main
  // ---------------------------------------------------------------------------

  /** The email names without a table entry, in iteration order. */
  function Unmapped(emails: seq<string>, t: Table): (r: seq<string>) {
    if emails == [] then []
    else
      var n := |emails| - 1;
      Unmapped(emails[..n], t) + (if !IsKey(t, emails[n]) then [emails[n]] else [])
  }

  lemma {:induction false} UnmappedExact(emails: seq<string>, t: Table)
    ensures forall e :: e in Unmapped(emails, t) <==> e in emails && !IsKey(t, e)
  {
    if emails != [] {
      var n := |emails| - 1;
      UnmappedExact(emails[..n], t);
      assert emails == emails[..n] + [emails[n]];
    }
  }

  /** `(e, h)` for each code `h` of `hs` that is not an actual location. */
  function MissingFor(e: string, hs: seq<string>, actual: seq<string>): seq<(string, string)> {
    if hs == [] then []
    else
      var n := |hs| - 1;
      MissingFor(e, hs[..n], actual) + (if hs[n] !in actual then [(e, hs[n])] else [])
  }

  lemma {:induction false} MissingForExact(e: string, hs: seq<string>, actual: seq<string>)
    ensures forall p :: p in MissingFor(e, hs, actual) <==> p.0 == e && p.1 in hs && p.1 !in actual
  {
    if hs != [] {
      var n := |hs| - 1;
      MissingForExact(e, hs[..n], actual);
      assert hs == hs[..n] + [hs[n]];
    }
  }

  /** The mapped email names' codes that are not actual locations. */
  function Missing(emails: seq<string>, t: Table, actual: seq<string>): seq<(string, string)> {
    if emails == [] then []
    else
      var n := |emails| - 1;
      Missing(emails[..n], t, actual) + (if IsKey(t, emails[n]) then MissingFor(emails[n], Get(t, emails[n]), actual) else [])
  }

  lemma {:induction false} MissingExact(emails: seq<string>, t: Table, actual: seq<string>)
    ensures forall p :: p in Missing(emails, t, actual) <==>
              p.0 in emails && IsKey(t, p.0) && p.1 in Get(t, p.0) && p.1 !in actual
  {
    if emails != [] {
      var n := |emails| - 1;
      MissingExact(emails[..n], t, actual);
      MissingForExact(emails[n], Get(t, emails[n]), actual);
      assert emails == emails[..n] + [emails[n]];
    }
  }

  /** `s` without the characters of `cs`. */
  function Remove(s: string, cs: set<char>): (r: string)
    ensures forall k :: 0 <= k < |r| ==> r[k] !in cs
  {
    if s == [] then []
    else Remove(s[..|s| - 1], cs) + (if s[|s| - 1] in cs then [] else [s[|s| - 1]])
  }

  /** The email name with brackets and spaces removed, upper-cased. */
  function CleanEmail(e: string): string {
    Upper(Remove(e, {'[', ']', ' '}))
  }

  /** The location code with dots removed, upper-cased. */
  function CleanCode(h: string): string {
    Upper(Remove(h, {'.'}))
  }

  /** Either cleaned string occurs inside the other. */
  predicate Similar(e: string, h: string) {
    Contains(CleanCode(h), CleanEmail(e)) || Contains(CleanEmail(e), CleanCode(h))
  }

  /** `(e, h)` for each actual location `h` similar to `e`. */
  function SuggestFor(e: string, actual: seq<string>): seq<(string, string)> {
    if actual == [] then []
    else
      var n := |actual| - 1;
      SuggestFor(e, actual[..n]) + (if Similar(e, actual[n]) then [(e, actual[n])] else [])
  }

  lemma {:induction false} SuggestForExact(e: string, actual: seq<string>)
    ensures forall p :: p in SuggestFor(e, actual) <==> p.0 == e && p.1 in actual && Similar(e, p.1)
  {
    if actual != [] {
      var n := |actual| - 1;
      SuggestForExact(e, actual[..n]);
      assert actual == actual[..n] + [actual[n]];
    }
  }

  /** The name-similarity suggestions for the unmapped names. */
  function Suggestions(unmapped: seq<string>, actual: seq<string>): seq<(string, string)> {
    if unmapped == [] then []
    else
      var n := |unmapped| - 1;
      Suggestions(unmapped[..n], actual) + SuggestFor(unmapped[n], actual)
  }

  lemma {:induction false} SuggestionsExact(unmapped: seq<string>, actual: seq<string>)
    ensures forall p :: p in Suggestions(unmapped, actual) <==> p.0 in unmapped && p.1 in actual && Similar(p.0, p.1)
  {
    if unmapped != [] {
      var n := |unmapped| - 1;
      SuggestionsExact(unmapped[..n], actual);
      SuggestForExact(unmapped[n], actual);
      assert unmapped == unmapped[..n] + [unmapped[n]];
    }
  }

  /** The codes of `hs` that are actual locations, in order. */
  function KeepActual(hs: seq<string>, actual: seq<string>): (r: seq<string>)
    ensures |r| <= |hs|
  {
    if hs == [] then []
    else
      var n := |hs| - 1;
      KeepActual(hs[..n], actual) + (if hs[n] in actual then [hs[n]] else [])
  }

  lemma {:induction false} KeepActualExact(hs: seq<string>, actual: seq<string>)
    ensures forall h :: h in KeepActual(hs, actual) <==> h in hs && h in actual
  {
    if hs != [] {
      var n := |hs| - 1;
      KeepActualExact(hs[..n], actual);
      assert hs == hs[..n] + [hs[n]];
    }
  }

  /** The email-name patterns the tool knows, with the codes they may map to. */
  const KnownPatterns: Table := [
    ("Barkley Cnyn", ["BACUS"]),
    ("ODP 1027", ["ODP1027"]),
    ("Endeavour", ["ENDEAVOUR"]),
    ("ODP 889", ["ODP889"]),
    ("Folger Pass", ["FOLGERPASS"]),
    ("SoG_Central", ["DIIP", "CBYIP", "HBIP", "HRBIP", "KVIP"])
  ]

  /** For each pattern of `known` whose name was seen in an email: the
      name and its suggested codes that exist. */
  function KnownChecks(known: Table, emails: seq<string>, actual: seq<string>): seq<(string, seq<string>)> {
    if known == [] then []
    else
      var n := |known| - 1;
      KnownChecks(known[..n], emails, actual)
      + (if known[n].0 in emails then [(known[n].0, KeepActual(known[n].1, actual))] else [])
  }

  /** The table entries to keep: for each entry whose name was seen in an
      email, the name with its codes that exist, when there is one. */
  function Entries(t: Table, emails: seq<string>, actual: seq<string>): seq<(string, seq<string>)> {
    if t == [] then []
    else
      var n := |t| - 1;
      var valid := KeepActual(t[n].1, actual);
      Entries(t[..n], emails, actual) + (if valid != [] && t[n].0 in emails then [(t[n].0, valid)] else [])
  }

  /** `p` is the entry row `i` of `t` gives: its name, with its codes that
      are actual. */
  predicate RowEntry(t: Table, actual: seq<string>, p: (string, seq<string>), i: int) {
    0 <= i < |t| && t[i].0 == p.0 && p.1 == KeepActual(t[i].1, actual)
  }

  /** Every emitted entry is a seen name of the table with a non-empty list
      of actual locations drawn from its codes. */
  lemma {:induction false} EntriesShape(t: Table, emails: seq<string>, actual: seq<string>)
    ensures forall p :: p in Entries(t, emails, actual) ==>
              p.0 in emails && p.1 != [] && (forall h :: h in p.1 ==> h in actual)
              && exists i :: RowEntry(t, actual, p, i)
  {
    if t != [] {
      var n := |t| - 1;
      var init := t[..n];
      EntriesShape(init, emails, actual);
      KeepActualExact(t[n].1, actual);
      forall p | p in Entries(t, emails, actual)
        ensures p.0 in emails && p.1 != [] && (forall h :: h in p.1 ==> h in actual)
                && exists i :: RowEntry(t, actual, p, i)
      {
        if p in Entries(init, emails, actual) {
          var i :| RowEntry(init, actual, p, i);
          assert init[i] == t[i];
          assert RowEntry(t, actual, p, i);
        } else {
          assert RowEntry(t, actual, p, n);
        }
      }
    }
  }


  /** The codes suggested for `e`, in suggestion order. */
  function SuggestedFor(e: string, suggestions: seq<(string, string)>): seq<string> {
    if suggestions == [] then []
    else
      var n := |suggestions| - 1;
      SuggestedFor(e, suggestions[..n]) + (if suggestions[n].0 == e then [suggestions[n].1] else [])
  }

  lemma {:induction false} SuggestedForExact(e: string, suggestions: seq<(string, string)>)
    ensures forall h :: h in SuggestedFor(e, suggestions) <==> (e, h) in suggestions
  {
    if suggestions != [] {
      var n := |suggestions| - 1;
      SuggestedForExact(e, suggestions[..n]);
      assert suggestions == suggestions[..n] + [suggestions[n]];
    }
  }

  /** The to-do entries: each unmapped name with the codes suggested for it. */
  function Todos(unmapped: seq<string>, suggestions: seq<(string, string)>): (r: seq<(string, seq<string>)>)
    ensures |r| == |unmapped|
    ensures forall k :: 0 <= k < |r| ==> r[k].0 == unmapped[k]
  {
    seq(|unmapped|, k requires 0 <= k < |unmapped| => (unmapped[k], SuggestedFor(unmapped[k], suggestions)))
  }

  /** What the analysis prints, as data. */
  datatype Analysis = Analysis(
    actual: seq<string>,
    unmapped: seq<string>,
    missing: seq<(string, string)>,
    suggestions: seq<(string, string)>,
    known: seq<(string, seq<string>)>,
    entries: seq<(string, seq<string>)>,
    todos: seq<(string, seq<string>)>)

  /** The whole analysis for the actual locations, the email names in the
      order the set yields them, and the current table. */
  function Analyse(actual: seq<string>, emails: seq<string>, t: Table): Analysis {
    var unmapped := Unmapped(emails, t);
    var suggestions := Suggestions(unmapped, actual);
    Analysis(actual, unmapped, Missing(emails, t, actual), suggestions,
             KnownChecks(KnownPatterns, emails, actual), Entries(t, emails, actual), Todos(unmapped, suggestions))
  }

  /** The analysis pairs up as the tool reports it: the unmapped names are
      exactly the unseen table names, a missing pair is exactly a mapped
      code that is not an actual location, a suggestion is exactly a
      similar actual location for an unmapped name, and each to-do entry
      lists exactly the suggestions for its name. */
  lemma AnalyseExact(actual: seq<string>, emails: seq<string>, t: Table)
    ensures var a := Analyse(actual, emails, t);
            (forall e :: e in a.unmapped <==> e in emails && !IsKey(t, e))
            && (forall p :: p in a.missing <==> p.0 in emails && IsKey(t, p.0) && p.1 in Get(t, p.0) && p.1 !in actual)
            && (forall p :: p in a.suggestions <==> p.0 in emails && !IsKey(t, p.0) && p.1 in actual && Similar(p.0, p.1))
            && forall k :: 0 <= k < |a.todos| ==>
                 a.todos[k].0 in a.unmapped && forall h :: h in a.todos[k].1 <==> (a.todos[k].0, h) in a.suggestions
  {
    var a := Analyse(actual, emails, t);
    UnmappedExact(emails, t);
    MissingExact(emails, t, actual);
    SuggestionsExact(a.unmapped, actual);
    forall k | 0 <= k < |a.todos|
      ensures forall h :: h in a.todos[k].1 <==> (a.todos[k].0, h) in a.suggestions
    {
      SuggestedForExact(a.unmapped[k], a.suggestions);
    }
  }

  /** `main`: exit code 1 and no analysis when the dashboard shows no
      locations, otherwise exit code 0 and the analysis. */
  method SetupLocationMapping(html: Option<string>, emails: seq<string>, t: Table)
    returns (exitCode: int, analysis: Option<Analysis>)
    ensures var actual := ExtractHydrophoneLocations(html);
            (exitCode == 1 <==> actual == []) && (exitCode == 0 <==> actual != [])
            && (analysis.None? <==> actual == [])
            && (analysis.Some? ==> analysis.value == Analyse(actual, emails, t))
  {
    var actual := ExtractHydrophoneLocations(html);
    if actual == [] {
      return 1, None;
    }
    var unmapped, missing := CheckMappings(actual, emails, t);
    var suggestions := SuggestCorrections(unmapped, actual);
    var known := ValidateKnownPatterns(emails, actual);
    var entries := KeptEntries(t, emails, actual);
    var todos := TodoEntries(unmapped, suggestions);
    return 0, Some(Analysis(actual, unmapped, missing, suggestions, known, entries, todos));
  }

  /** The loop over the email names: unmapped names and codes mapped to
      locations that do not exist. */
  method CheckMappings(actual: seq<string>, emails: seq<string>, t: Table)
    returns (unmapped: seq<string>, missing: seq<(string, string)>)
    ensures unmapped == Unmapped(emails, t)
    ensures missing == Missing(emails, t, actual)
  {
    unmapped := [];
    missing := [];
    var i := 0;
    while i < |emails|
      invariant 0 <= i <= |emails|
      invariant unmapped == Unmapped(emails[..i], t)
      invariant missing == Missing(emails[..i], t, actual)
    {
      assert emails[..i + 1][..i] == emails[..i];
      var e := emails[i];
      if !IsKey(t, e) {
        unmapped := unmapped + [e];
      } else {
        var hs := Get(t, e);
        var j := 0;
        while j < |hs|
          invariant 0 <= j <= |hs|
          invariant missing == Missing(emails[..i], t, actual) + MissingFor(e, hs[..j], actual)
        {
          assert hs[..j + 1][..j] == hs[..j];
          if hs[j] !in actual {
            missing := missing + [(e, hs[j])];
          }
          j := j + 1;
        }
        assert hs[..j] == hs;
      }
      i := i + 1;
    }
    assert emails[..i] == emails;
  }

  /** The nested loop proposing similar actual locations for unmapped names. */
  method SuggestCorrections(unmapped: seq<string>, actual: seq<string>) returns (suggestions: seq<(string, string)>)
    ensures suggestions == Suggestions(unmapped, actual)
  {
    suggestions := [];
    var i := 0;
    while i < |unmapped|
      invariant 0 <= i <= |unmapped|
      invariant suggestions == Suggestions(unmapped[..i], actual)
    {
      assert unmapped[..i + 1][..i] == unmapped[..i];
      var e := unmapped[i];
      var emailClean := Upper(Remove(e, {'[', ']', ' '}));
      var j := 0;
      while j < |actual|
        invariant 0 <= j <= |actual|
        invariant suggestions == Suggestions(unmapped[..i], actual) + SuggestFor(e, actual[..j])
      {
        assert actual[..j + 1][..j] == actual[..j];
        var hydroClean := Upper(Remove(actual[j], {'.'}));
        if Contains(hydroClean, emailClean) || Contains(emailClean, hydroClean) {
          suggestions := suggestions + [(e, actual[j])];
        }
        j := j + 1;
      }
      assert actual[..j] == actual;
      i := i + 1;
    }
    assert unmapped[..i] == unmapped;
  }

  /** The loop over the known patterns whose name was seen. */
  method ValidateKnownPatterns(emails: seq<string>, actual: seq<string>) returns (known: seq<(string, seq<string>)>)
    ensures known == KnownChecks(KnownPatterns, emails, actual)
  {
    known := [];
    var i := 0;
    while i < |KnownPatterns|
      invariant 0 <= i <= |KnownPatterns|
      invariant known == KnownChecks(KnownPatterns[..i], emails, actual)
    {
      assert KnownPatterns[..i + 1][..i] == KnownPatterns[..i];
      var (e, hs) := KnownPatterns[i];
      if e in emails {
        var existing := KeepActualLoop(hs, actual);
        known := known + [(e, existing)];
      }
      i := i + 1;
    }
    assert KnownPatterns[..i] == KnownPatterns;
  }

  /** `[h for h in hs if h in actual]`. */
  method KeepActualLoop(hs: seq<string>, actual: seq<string>) returns (r: seq<string>)
    ensures r == KeepActual(hs, actual)
  {
    r := [];
    var j := 0;
    while j < |hs|
      invariant 0 <= j <= |hs|
      invariant r == KeepActual(hs[..j], actual)
    {
      assert hs[..j + 1][..j] == hs[..j];
      if hs[j] in actual {
        r := r + [hs[j]];
      }
      j := j + 1;
    }
    assert hs[..j] == hs;
  }

  /** The loop emitting the current entries that still apply. */
  method KeptEntries(t: Table, emails: seq<string>, actual: seq<string>) returns (entries: seq<(string, seq<string>)>)
    ensures entries == Entries(t, emails, actual)
  {
    entries := [];
    var i := 0;
    while i < |t|
      invariant 0 <= i <= |t|
      invariant entries == Entries(t[..i], emails, actual)
    {
      assert t[..i + 1][..i] == t[..i];
      var valid := KeepActualLoop(t[i].1, actual);
      if valid != [] && t[i].0 in emails {
        entries := entries + [(t[i].0, valid)];
      }
      i := i + 1;
    }
    assert t[..i] == t;
  }

  /** The loop emitting a to-do entry per unmapped name. */
  method TodoEntries(unmapped: seq<string>, suggestions: seq<(string, string)>) returns (todos: seq<(string, seq<string>)>)
    ensures todos == Todos(unmapped, suggestions)
  {
    todos := [];
    var i := 0;
    while i < |unmapped|
      invariant 0 <= i <= |unmapped|
      invariant todos == Todos(unmapped[..i], suggestions)
    {
      var e := unmapped[i];
      var potential: seq<string> := [];
      var j := 0;
      while j < |suggestions|
        invariant 0 <= j <= |suggestions|
        invariant potential == SuggestedFor(e, suggestions[..j])
      {
        assert suggestions[..j + 1][..j] == suggestions[..j];
        if suggestions[j].0 == e {
          potential := potential + [suggestions[j].1];
        }
        j := j + 1;
      }
      assert suggestions[..j] == suggestions;
      todos := todos + [(e, potential)];
      i := i + 1;
    }
    assert unmapped[..i] == unmapped;
  }
}
