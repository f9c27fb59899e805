/** Hydrophone location discovery (src/hydrophonedashboard/utils/location_discovery.py):
    reading a location name out of a deployment citation, and grouping
    deployments by parent location into the list of locations shown to the
    user, each with a display name and a device count. The archive queries
    are left out; their answers are the inputs. */
module LocationDiscovery {
  import opened Text
  import Subject

  // ---------------------------------------------------------------------------
  // Character-level scanners for the citation patterns
  // ---------------------------------------------------------------------------

  /** The lower-case word `w` at `i`, ignoring case. */
  predicate WordAt(s: string, i: nat, w: string) {
    i + |w| <= |s| && Lower(s[i..i + |w|]) == w
  }

  /** `\s+` followed by the word `w`, starting at `i`. */
  predicate SpacedWordAt(s: string, i: nat, w: string) {
    i < |s| && IsSpace(s[i]) && WordAt(s, SkipSpaces(s, i), w)
  }

  /** `\d{4}-\d{2}-\d{2}` at `i`. */
  predicate DateAt(s: string, i: nat) {
    i + 10 <= |s| && Subject.DigitsAt(s, i, 4) && s[i + 4] == '-' && Subject.DigitsAt(s, i + 5, 2)
    && s[i + 7] == '-' && Subject.DigitsAt(s, i + 8, 2)
  }

  /** `\s+Deployed\s+\d{4}-\d{2}-\d{2}` at `i`. */
  predicate DeployedDateAt(s: string, i: nat) {
    SpacedWordAt(s, i, "deployed")
    && var j := SkipSpaces(s, i) + 8;
       j < |s| && IsSpace(s[j]) && DateAt(s, SkipSpaces(s, j))
  }

  /** What must follow the name in the main pattern:
      `(?:\s+Hydrophone)?\s+Deployed\s+\d{4}-\d{2}-\d{2}`. */
  predicate TailAt(s: string, i: nat) {
    i <= |s|
    && (DeployedDateAt(s, i)
        || (SpacedWordAt(s, i, "hydrophone") && DeployedDateAt(s, SkipSpaces(s, i) + 10)))
  }

  /** `\.\s*\d{4}\.` at `i`: the position just after it. */
  function LeadAt(s: string, i: nat): (r: Option<nat>)
    ensures r.Some? ==> i < r.value <= |s|
  {
    if i < |s| && s[i] == '.' then
      var j := SkipSpaces(s, i + 1);
      if j + 4 < |s| && Subject.DigitsAt(s, j, 4) && s[j + 4] == '.' then Some(j + 5) else None
    else None
  }

  predicate SameLine(s: string, g: nat, e: nat) {
    forall k :: g <= k < e && k < |s| ==> s[k] != '\n'
  }

  /** The first position in `[i, n)` where `p` holds: the scan the
      regular-expression searches below make from left to right. */
  function FirstPos(p: nat -> bool, i: nat, n: nat): (r: Option<nat>)
    decreases n - i
    ensures r.Some? ==> i <= r.value < n
  {
    if i >= n then None else if p(i) then Some(i) else FirstPos(p, i + 1, n)
  }

  /** The position found is the leftmost where `p` holds; none is found
      only when `p` holds nowhere in the range. */
  lemma {:induction false} FirstPosShape(p: nat -> bool, i: nat, n: nat)
    decreases n - i
    ensures var r := FirstPos(p, i, n);
            (r.Some? ==> p(r.value) && forall k :: i <= k < r.value ==> !p(k))
            && (r.None? ==> forall k :: i <= k < n ==> !p(k))
  {
    if i < n && !p(i) {
      FirstPosShape(p, i + 1, n);
    }
  }

  /** The positions where the tail matches. */
  function Tails(s: string): nat -> bool {
    (k: nat) => TailAt(s, k)
  }

  /** The lazy `(.*?)` that starts at `g`: the first end at or after `g`,
      still on the same line, where the tail matches. */
  function GroupEnd(s: string, g: nat): (r: Option<nat>)
    requires g <= |s|
    ensures r.Some? ==> g <= r.value <= |s|
  {
    FirstPos(Tails(s), g, LineEnd(s, g) + 1)
  }

  /** The end found is the first one on the line where the tail matches;
      none is found only when no end on the line has the tail. */
  lemma GroupEndShape(s: string, g: nat)
    requires g <= |s|
    ensures var r := GroupEnd(s, g);
            (r.Some? ==> SameLine(s, g, r.value) && TailAt(s, r.value)
                         && forall k :: g <= k < r.value ==> !TailAt(s, k))
            && (r.None? ==> forall k :: g <= k <= |s| && SameLine(s, g, k) ==> !TailAt(s, k))
  {
    var e := LineEnd(s, g);
    FirstPosShape(Tails(s), g, e + 1);
    var r := GroupEnd(s, g);
    if r.Some? {
      assert Tails(s)(r.value);
      forall k | g <= k < r.value ensures !TailAt(s, k) {
        assert !Tails(s)(k);
      }
    } else {
      forall k | g <= k <= |s| && SameLine(s, g, k) ensures !TailAt(s, k) {
        assert !Tails(s)(k);
      }
    }
  }

  datatype Search = NoMatch | Match(group: string)

  /** The main pattern `\.\s*\d{4}\.\s*(.*?)(?:\s+Hydrophone)?\s+Deployed\s+\d{4}-\d{2}-\d{2}`
      tried at `i`. The greedy `\s*` before the name is tried in full first;
      only if no end fits does it give back whitespace, and then the name
      group can only be empty or blank. */
  function PrimaryAt(s: string, i: nat): Search {
    match LeadAt(s, i)
    case None => NoMatch
    case Some(p) =>
      var g := SkipSpaces(s, p);
      match GroupEnd(s, g)
      case Some(e) => Match(s[g..e])
      case None => if p < g && TailAt(s, p) then assert s[p..p] == ""; Match("") else NoMatch
  }

  /** A match of the main pattern at `i` has its name group on one line,
      after the lead, and followed by the tail. */
  lemma PrimaryAtShape(s: string, i: nat)
    ensures var r := PrimaryAt(s, i);
            r.Match? ==> exists g, e :: i < g <= e <= |s| && r.group == s[g..e] && SameLine(s, g, e) && TailAt(s, e)
  {
    if LeadAt(s, i).Some? {
      var p := LeadAt(s, i).value;
      var g := SkipSpaces(s, p);
      GroupEndShape(s, g);
      if GroupEnd(s, g).None? && p < g && TailAt(s, p) {
        assert PrimaryAt(s, i).group == s[p..p];
      }
    }
  }

  /** The starts where the main pattern matches. */
  function Primaries(s: string): nat -> bool {
    (k: nat) => PrimaryAt(s, k).Match?
  }

  /** `re.search` of the main pattern from `i`: the match at the leftmost
      start that has one. */
  function SearchPrimary(s: string, i: nat): Search
    requires i <= |s|
  {
    match FirstPos(Primaries(s), i, |s|)
    case Some(k) => PrimaryAt(s, k)
    case None => NoMatch
  }

  /** The search finds no match only when no start has one. */
  lemma SearchPrimaryNone(s: string, i: nat)
    requires i <= |s| && SearchPrimary(s, i).NoMatch?
    ensures forall k :: i <= k < |s| ==> PrimaryAt(s, k).NoMatch?
  {
    FirstPosShape(Primaries(s), i, |s|);
    forall k | i <= k < |s| ensures PrimaryAt(s, k).NoMatch? {
      assert !Primaries(s)(k);
    }
  }

  /** A match the search finds is the match at the leftmost start that has
      one. */
  lemma SearchPrimaryLeftmost(s: string, i: nat)
    requires i <= |s| && SearchPrimary(s, i).Match?
    ensures exists k :: i <= k < |s| && PrimaryAt(s, k) == SearchPrimary(s, i)
                        && forall j :: i <= j < k ==> PrimaryAt(s, j).NoMatch?
  {
    FirstPosShape(Primaries(s), i, |s|);
    var k := FirstPos(Primaries(s), i, |s|).value;
    forall j | i <= j < k ensures PrimaryAt(s, j).NoMatch? {
      assert !Primaries(s)(j);
    }
  }

  /** The end of the line holding position `g`. */
  function LineEnd(s: string, g: nat): (e: nat)
    requires g <= |s|
    decreases |s| - g
    ensures g <= e <= |s| && SameLine(s, g, e) && (e < |s| ==> s[e] == '\n')
  {
    if g < |s| && s[g] != '\n' then LineEnd(s, g + 1) else g
  }

  /** `re.search(r'\.\s*\d{4}\.\s*(.*)', s)` from `i`: the rest of the line
      after the first lead. */
  function SearchFallback(s: string, i: nat): (r: Option<string>)
    requires i <= |s|
    decreases |s| - i
    ensures r.Some? ==> '\n' !in r.value
  {
    if i == |s| then None
    else match LeadAt(s, i)
      case Some(p) =>
        var g := SkipSpaces(s, p);
        var e := LineEnd(s, g);
        assert forall k :: 0 <= k < e - g ==> s[g..e][k] == s[g + k];
        Some(s[g..e])
      case None => SearchFallback(s, i + 1)
  }

  // ---------------------------------------------------------------------------
  // The clean-up patterns of the fallback
  // ---------------------------------------------------------------------------

  /** The patterns the fallback cuts a name at. */
  datatype Pattern =
    | Date                // \d{4}-\d{2}-\d{2}
    | Doi                 // https?://doi.org, any character standing for the dot
    | HydrophoneDeployed  // \s+Hydrophone\s+Deployed
    | Deployed            // \s+Deployed

  predicate DoiRestAt(s: string, j: nat) {
    WordAt(s, j, "://doi") && j + 6 < |s| && s[j + 6] != '\n' && WordAt(s, j + 7, "org")
  }

  predicate MatchesAt(s: string, k: nat, p: Pattern) {
    k < |s| &&
    match p
    case Date => DateAt(s, k)
    case Doi => WordAt(s, k, "http") && (DoiRestAt(s, k + 4) || (WordAt(s, k + 4, "s") && DoiRestAt(s, k + 5)))
    case HydrophoneDeployed =>
      SpacedWordAt(s, k, "hydrophone") && SpacedWordAt(s, SkipSpaces(s, k) + 10, "deployed")
    case Deployed => SpacedWordAt(s, k, "deployed")
  }

  ghost predicate Free(s: string, p: Pattern) {
    forall k: nat :: !MatchesAt(s, k, p)
  }

  /** The leftmost match of `p` at or after `i`. */
  function FirstMatch(s: string, p: Pattern, i: nat): (r: Option<nat>)
    ensures r.Some? ==> i <= r.value < |s|
  {
    FirstPos(Matches(s, p), i, |s|)
  }

  /** The positions where `p` matches. */
  function Matches(s: string, p: Pattern): nat -> bool {
    (k: nat) => MatchesAt(s, k, p)
  }

  /** The match found is the leftmost one at or after `i`; none is found
      only when there is none. */
  lemma FirstMatchLeftmost(s: string, p: Pattern, i: nat)
    ensures var r := FirstMatch(s, p, i);
            (r.Some? ==> MatchesAt(s, r.value, p) && forall k: nat :: i <= k < r.value ==> !MatchesAt(s, k, p))
            && (r.None? ==> forall k: nat :: i <= k ==> !MatchesAt(s, k, p))
  {
    FirstPosShape(Matches(s, p), i, |s|);
    var r := FirstMatch(s, p, i);
    if r.Some? {
      assert Matches(s, p)(r.value);
      forall k: nat | i <= k < r.value ensures !MatchesAt(s, k, p) {
        assert !Matches(s, p)(k);
      }
    } else {
      forall k: nat | i <= k ensures !MatchesAt(s, k, p) {
        if k < |s| {
          assert !Matches(s, p)(k);
        }
      }
    }
  }

  /** `s[:m.start()]` for the leftmost match `m`, or `s` without one. */
  function CutAt(s: string, p: Pattern): (r: string)
    ensures |r| <= |s|
  {
    match FirstMatch(s, p, 0)
    case Some(k) => s[..k]
    case None => s
  }

  /** What is left after a cut is a prefix of `s`. */
  lemma CutAtPrefix(s: string, p: Pattern)
    ensures CutAt(s, p) == s[0..|CutAt(s, p)|]
  {
  }

  // ---------------------------------------------------------------------------
  // extract_name_from_citation
  // ---------------------------------------------------------------------------

  /** The characters `rstrip('.,;:!?)(')` removes. */
  const Punctuation: set<char> := {'.', ',', ';', ':', '!', '?', ')', '('}

  predicate Generic(name: string) {
    Lower(name) == "hydrophone" || Lower(name) == "underwater network"
  }

  predicate CleanEnd(name: string) {
    name == [] || name[|name| - 1] !in Punctuation
  }

  /** The name from the main pattern, when it is there and not generic. */
  function PrimaryName(s: string): (r: Option<string>)
    ensures r.Some? ==> CleanEnd(r.value)
  {
    match SearchPrimary(s, 0)
    case NoMatch => None
    case Match(group) =>
      var name := Strip(group);
      if name != "" && !Generic(name) then Some(RStripSet(name, Punctuation)) else None
  }

  /** The name from the fallback pattern after its clean-up. */
  function FallbackName(s: string): (r: Option<string>)
    ensures r.Some? ==> CleanEnd(r.value)
  {
    match SearchFallback(s, 0)
    case None => None
    case Some(group) =>
      var f := CleanFallback(Strip(group));
      if f != "" && !Generic(f) then Some(f) else None
  }

  /** The clean-up of the fallback's group: cut at a date, then at a DOI
      link (each only when there is one), then at `Hydrophone Deployed`
      and at `Deployed`, stripping after each cut, and drop trailing
      punctuation. */
  function CleanFallback(a: string): (f: string)
    ensures CleanEnd(f)
  {
    var c := TrimAt(TrimAt(a, Date), Doi);
    var e := Strip(CutAt(Strip(CutAt(c, HydrophoneDeployed)), Deployed));
    RStripSet(e, Punctuation)
  }

  /** Cut at the leftmost match of `p` and strip, when there is one. */
  function TrimAt(s: string, p: Pattern): string {
    if FirstMatch(s, p, 0).Some? then Strip(CutAt(s, p)) else s
  }

  /** `extract_name_from_citation`. */
  function ExtractName(citation: Option<string>): (r: Option<string>)
    ensures r.Some? ==> citation.Some? && citation.value != ""
    ensures r.Some? ==> CleanEnd(r.value)
  {
    if citation.None? || citation.value == "" then None
    else if PrimaryName(citation.value).Some? then PrimaryName(citation.value)
    else FallbackName(citation.value)
  }

  // ---------------------------------------------------------------------------
  // What the fallback leaves out
  // ---------------------------------------------------------------------------

  /** A whitespace run that ends inside a piece of `s` ends at the same place
      in `s`. */
  lemma {:induction false} SkipSpacesEmbeds(s: string, o: nat, t: string, k: nat)
    requires o + |t| <= |s| && t == s[o..o + |t|] && k <= |t| && SkipSpaces(t, k) < |t|
    ensures SkipSpaces(s, o + k) == o + SkipSpaces(t, k)
    decreases |t| - k
  {
    assert t[k] == s[o + k];
    if IsSpace(t[k]) {
      SkipSpacesEmbeds(s, o, t, k + 1);
    }
  }

  lemma Slices(s: string, o: nat, n: nat, a: nat, b: nat)
    requires o + n <= |s| && a <= b <= n
    ensures s[o..o + n][a..b] == s[o + a..o + b]
  {
    var x := s[o..o + n][a..b];
    var y := s[o + a..o + b];
    forall m | 0 <= m < |x|
      ensures x[m] == y[m]
    {
    }
  }

  lemma WordEmbeds(s: string, o: nat, t: string, k: nat, w: string)
    requires o + |t| <= |s| && t == s[o..o + |t|] && WordAt(t, k, w)
    ensures WordAt(s, o + k, w)
  {
    Slices(s, o, |t|, k, k + |w|);
  }

  lemma SpacedWordEmbeds(s: string, o: nat, t: string, k: nat, w: string)
    requires o + |t| <= |s| && t == s[o..o + |t|] && SpacedWordAt(t, k, w) && w != []
    ensures SpacedWordAt(s, o + k, w) && SkipSpaces(s, o + k) == o + SkipSpaces(t, k)
  {
    assert t[k] == s[o + k];
    SkipSpacesEmbeds(s, o, t, k);
    WordEmbeds(s, o, t, SkipSpaces(t, k), w);
  }

  lemma DoiEmbeds(s: string, o: nat, t: string, k: nat)
    requires o + |t| <= |s| && t == s[o..o + |t|] && MatchesAt(t, k, Doi)
    ensures MatchesAt(s, o + k, Doi)
  {
    WordEmbeds(s, o, t, k, "http");
    if DoiRestAt(t, k + 4) {
      DoiRestEmbeds(s, o, t, k + 4);
    } else {
      WordEmbeds(s, o, t, k + 4, "s");
      DoiRestEmbeds(s, o, t, k + 5);
    }
  }

  lemma DoiRestEmbeds(s: string, o: nat, t: string, j: nat)
    requires o + |t| <= |s| && t == s[o..o + |t|] && DoiRestAt(t, j)
    ensures DoiRestAt(s, o + j)
  {
    WordEmbeds(s, o, t, j, "://doi");
    WordEmbeds(s, o, t, j + 7, "org");
    assert t[j + 6] == s[o + j + 6];
  }

  lemma DateEmbeds(s: string, o: nat, t: string, k: nat)
    requires o + |t| <= |s| && t == s[o..o + |t|] && MatchesAt(t, k, Date)
    ensures MatchesAt(s, o + k, Date)
  {
    assert forall m :: k <= m < k + 10 ==> t[m] == s[o + m];
  }

  lemma HydrophoneDeployedEmbeds(s: string, o: nat, t: string, k: nat)
    requires o + |t| <= |s| && t == s[o..o + |t|] && MatchesAt(t, k, HydrophoneDeployed)
    ensures MatchesAt(s, o + k, HydrophoneDeployed)
  {
    var j := SkipSpaces(t, k);
    SpacedWordEmbeds(s, o, t, k, "hydrophone");
    SpacedWordEmbeds(s, o, t, j + 10, "deployed");
    assert SkipSpaces(s, o + k) + 10 == o + (j + 10);
  }

  /** A pattern found in a piece of `s` is found in `s`. */
  lemma MatchEmbeds(s: string, o: nat, t: string, k: nat, p: Pattern)
    requires o + |t| <= |s| && t == s[o..o + |t|] && MatchesAt(t, k, p)
    ensures MatchesAt(s, o + k, p)
  {
    match p
    case Date => DateEmbeds(s, o, t, k);
    case Doi => DoiEmbeds(s, o, t, k);
    case HydrophoneDeployed => HydrophoneDeployedEmbeds(s, o, t, k);
    case Deployed => SpacedWordEmbeds(s, o, t, k, "deployed");
  }

  /** A piece of a string free of a pattern is free of it. */
  lemma FreePiece(s: string, o: nat, t: string, p: Pattern)
    requires o + |t| <= |s| && t == s[o..o + |t|] && Free(s, p)
    ensures Free(t, p)
  {
    forall k: nat ensures !MatchesAt(t, k, p) {
      if MatchesAt(t, k, p) {
        MatchEmbeds(s, o, t, k, p);
      }
    }
  }

  /** Cutting at the leftmost match leaves no match. */
  lemma CutFree(s: string, p: Pattern)
    requires FirstMatch(s, p, 0).Some?
    ensures Free(CutAt(s, p), p)
  {
    var t := CutAt(s, p);
    FirstMatchLeftmost(s, p, 0);
    CutAtPrefix(s, p);
    forall k: nat ensures !MatchesAt(t, k, p) {
      if MatchesAt(t, k, p) {
        MatchEmbeds(s, 0, t, k, p);
      }
    }
  }

  lemma StripFree(s: string, p: Pattern)
    requires Free(s, p)
    ensures Free(Strip(s), p)
  {
    FreePiece(s, StripOffset(s), Strip(s), p);
  }

  lemma CutStripFree(s: string, p: Pattern, q: Pattern)
    requires Free(s, q)
    ensures Free(Strip(CutAt(s, p)), q)
  {
    CutAtPrefix(s, p);
    FreePiece(s, 0, CutAt(s, p), q);
    StripFree(CutAt(s, p), q);
  }

  /** A name from the fallback holds no date, no DOI link and no
      `Deployed` word after whitespace, does not end in punctuation, and is
      neither empty nor generic. */
  lemma FallbackNameClean(s: string)
    requires FallbackName(s).Some?
    ensures var f := FallbackName(s).value;
            f != "" && !Generic(f) && CleanEnd(f) && Free(f, Date) && Free(f, Doi) && Free(f, Deployed)
  {
    CleanFallbackFree(Strip(SearchFallback(s, 0).value));
  }

  /** The cleaned-up group holds no date, no DOI link and no `Deployed`
      word after whitespace. */
  lemma CleanFallbackFree(a: string)
    ensures var f := CleanFallback(a);
            Free(f, Date) && Free(f, Doi) && Free(f, Deployed)
  {
    var c := TrimAt(TrimAt(a, Date), Doi);
    TrimsFree(a);
    var d := Strip(CutAt(c, HydrophoneDeployed));
    CutStripFree(c, HydrophoneDeployed, Date);
    CutStripFree(c, HydrophoneDeployed, Doi);
    var e := Strip(CutAt(d, Deployed));
    CutStripFree(d, Deployed, Date);
    CutStripFree(d, Deployed, Doi);
    CutStripSelfFree(d, Deployed);
    var f := RStripSet(e, Punctuation);
    FreePiece(e, 0, f, Date);
    FreePiece(e, 0, f, Doi);
    FreePiece(e, 0, f, Deployed);
  }

  /** The first two cuts leave no date and no DOI link. */
  lemma TrimsFree(a: string)
    ensures Free(TrimAt(TrimAt(a, Date), Doi), Date) && Free(TrimAt(TrimAt(a, Date), Doi), Doi)
  {
    var b := TrimAt(a, Date);
    TrimFree(a, Date);
    TrimFree(b, Doi);
    TrimKeeps(b, Doi, Date);
  }

  /** Trimming at `p` leaves no match of `p`. */
  lemma TrimFree(s: string, p: Pattern)
    ensures Free(TrimAt(s, p), p)
  {
    if FirstMatch(s, p, 0).Some? {
      CutFree(s, p);
      StripFree(CutAt(s, p), p);
    } else {
      FirstMatchLeftmost(s, p, 0);
    }
  }

  /** Trimming keeps a string free of any pattern it was free of. */
  lemma TrimKeeps(s: string, p: Pattern, q: Pattern)
    requires Free(s, q)
    ensures Free(TrimAt(s, p), q)
  {
    if FirstMatch(s, p, 0).Some? {
      CutStripFree(s, p, q);
    }
  }

  /** Cutting at `p` and stripping leaves no match of `p`. */
  lemma CutStripSelfFree(s: string, p: Pattern)
    ensures Free(Strip(CutAt(s, p)), p)
  {
    if FirstMatch(s, p, 0).Some? {
      CutFree(s, p);
      StripFree(CutAt(s, p), p);
    } else {
      FirstMatchLeftmost(s, p, 0);
      assert CutAt(s, p) == s;
      StripFree(s, p);
    }
  }

  // ---------------------------------------------------------------------------
  // Grouping deployments by parent location
  // ---------------------------------------------------------------------------

  /** What a deployment record contributes: its location code, its device
      code and the text of its citation, each possibly absent. */
  datatype Deployment = Deployment(locationCode: Option<string>, deviceCode: Option<string>, citation: Option<string>)

  /** One entry of the location list. */
  datatype Choice = Choice(locationCode: string, locationName: string, deviceCount: nat)

  /** A deployment with a (non-empty) location code. */
  predicate Located(d: Deployment) {
    d.locationCode.Some? && d.locationCode.value != ""
  }

  /** The part of a location code before its first `.`. */
  function ParentCode(code: string): (r: string)
    ensures '.' !in r && StartsWith(code, r)
    ensures r == code <==> '.' !in code
  {
    var r := Split(code, '.')[0];
    JoinHead(Split(code, '.'), ".");
    r
  }

  lemma {:induction false} JoinHead(parts: seq<string>, sep: string)
    requires |parts| >= 1
    ensures StartsWith(Join(parts, sep), parts[0])
    ensures |parts| > 1 ==> StartsWith(Join(parts, sep), parts[0] + sep)
  {
    if |parts| > 1 {
      assert Join(parts, sep) == parts[0] + sep + Join(parts[1..], sep);
      assert (parts[0] + sep + Join(parts[1..], sep))[..|parts[0] + sep|] == parts[0] + sep;
      assert (parts[0] + sep + Join(parts[1..], sep))[..|parts[0]|] == parts[0];
    }
  }

  function ParentOf(d: Deployment): string
    requires Located(d)
  {
    ParentCode(d.locationCode.value)
  }

  /** The parent codes of the located deployments, in input order. */
  function Parents(ds: seq<Deployment>): seq<string> {
    if ds == [] then []
    else
      var n := |ds| - 1;
      if Located(ds[n]) then Parents(ds[..n]) + [ParentOf(ds[n])] else Parents(ds[..n])
  }

  /** A code is listed exactly when it is the parent of a located deployment. */
  lemma {:induction false} ParentsMembers(ds: seq<Deployment>)
    ensures forall c :: c in Parents(ds) <==> exists i :: 0 <= i < |ds| && Located(ds[i]) && ParentOf(ds[i]) == c
    ensures forall i :: 0 <= i < |ds| && Located(ds[i]) ==> ParentOf(ds[i]) in Parents(ds)
  {
    if ds != [] {
      var n := |ds| - 1;
      ParentsMembers(ds[..n]);
      assert forall i :: 0 <= i < n ==> ds[..n][i] == ds[i];
    }
  }

  /** The deployments at a parent location, in input order. */
  function AtParent(ds: seq<Deployment>, p: string): seq<Deployment> {
    if ds == [] then []
    else
      var n := |ds| - 1;
      if Located(ds[n]) && ParentOf(ds[n]) == p then AtParent(ds[..n], p) + [ds[n]] else AtParent(ds[..n], p)
  }

  /** The deployments kept for `p` are located deployments of `ds` whose
      parent is `p`, and every such deployment is kept. */
  lemma {:induction false} AtParentMembers(ds: seq<Deployment>, p: string)
    ensures forall d :: d in AtParent(ds, p) <==> d in ds && Located(d) && ParentOf(d) == p
  {
    if ds != [] {
      var n := |ds| - 1;
      AtParentMembers(ds[..n], p);
      assert ds == ds[..n] + [ds[n]];
    }
  }

  lemma {:induction false} AtParentNonEmpty(ds: seq<Deployment>, p: string)
    requires p in Parents(ds)
    ensures AtParent(ds, p) != []
  {
    var n := |ds| - 1;
    if !(Located(ds[n]) && ParentOf(ds[n]) == p) {
      AtParentNonEmpty(ds[..n], p);
    }
  }

  /** The distinct non-empty device codes among `ds`. */
  function DeviceCodes(ds: seq<Deployment>): set<string> {
    if ds == [] then {}
    else
      var n := |ds| - 1;
      var r := DeviceCodes(ds[..n]);
      if ds[n].deviceCode.Some? && ds[n].deviceCode.value != "" then r + {ds[n].deviceCode.value} else r
  }

  /** The device codes are exactly the non-empty codes some deployment names. */
  lemma {:induction false} DeviceCodesMembers(ds: seq<Deployment>)
    ensures forall c :: c in DeviceCodes(ds) <==> c != "" && exists i :: 0 <= i < |ds| && ds[i].deviceCode == Some(c)
  {
    if ds != [] {
      var n := |ds| - 1;
      DeviceCodesMembers(ds[..n]);
      assert forall i :: 0 <= i < n ==> ds[..n][i] == ds[i];
    }
  }

  lemma {:induction false} DeviceCodesBound(ds: seq<Deployment>)
    ensures |DeviceCodes(ds)| <= |ds|
  {
    if ds != [] {
      DeviceCodesBound(ds[..|ds| - 1]);
    }
  }

  /** Location-map names that say nothing about the place. */
  const GenericMapNames: set<string> := {"Hydrophone Array - Box Type", "Underwater Network"}

  /** The display name: a specific location-map name, else a name read from
      the first deployment's citation, else a generic map name, else the
      code. An empty map name or citation name counts as absent. */
  function DisplayName(mapName: Option<string>, citationName: Option<string>, code: string): (r: string)
    ensures r == code || (mapName.Some? && r == mapName.value) || (citationName.Some? && r == citationName.value)
  {
    var fromMap := mapName.Some? && mapName.value != "";
    if fromMap && mapName.value !in GenericMapNames then mapName.value
    else if citationName.Some? && citationName.value != "" then citationName.value
    else if fromMap then mapName.value
    else code
  }

  /** Each source wins exactly when every source before it is missing. */
  lemma DisplayNamePrecedence(mapName: Option<string>, citationName: Option<string>, code: string)
    ensures var r := DisplayName(mapName, citationName, code);
            var specific := mapName.Some? && mapName.value != "" && mapName.value !in GenericMapNames;
            var cited := citationName.Some? && citationName.value != "";
            (specific ==> r == mapName.value)
            && (!specific && cited ==> r == citationName.value)
            && (!specific && !cited && mapName.Some? && mapName.value != "" ==> r == mapName.value && r in GenericMapNames)
            && (r == code <== (mapName.None? || mapName.value == "") && !cited)
            && (r != "" || code == "")
  {
  }

  /** The entry for parent code `p` whose deployments are `at`: the name
      from the location map or the first deployment's citation, and the
      number of distinct devices. */
  function ChoiceOf(locMap: map<string, string>, p: string, at: seq<Deployment>): Choice {
    var citationName := if at != [] then ExtractName(at[0].citation) else None;
    Choice(p, DisplayName(if p in locMap then Some(locMap[p]) else None, citationName, p), |DeviceCodes(at)|)
  }

  /** The entry for one parent code of `ds`. */
  function ChoiceFor(locMap: map<string, string>, ds: seq<Deployment>, p: string): Choice {
    ChoiceOf(locMap, p, AtParent(ds, p))
  }

  /** The location list: one entry per parent code, in code order; nothing
      when no deployment has a location code. */
  function Locations(locMap: map<string, string>, ds: seq<Deployment>): Option<seq<Choice>> {
    var ps := SortedDistinct(Parents(ds));
    if ps == [] then None
    else Some(seq(|ps|, i requires 0 <= i < |ps| => ChoiceFor(locMap, ds, ps[i])))
  }

  /** There is no list exactly when no deployment has a location code. */
  lemma LocationsNone(locMap: map<string, string>, ds: seq<Deployment>)
    ensures Locations(locMap, ds).None? <==> forall i :: 0 <= i < |ds| ==> !Located(ds[i])
  {
    ParentsMembers(ds);
    if SortedDistinct(Parents(ds)) != [] {
      assert SortedDistinct(Parents(ds))[0] in Parents(ds);
    }
  }

  /** The entries are strictly ordered by code, and their codes are exactly
      the parent codes of the located deployments. */
  lemma LocationsCodes(locMap: map<string, string>, ds: seq<Deployment>)
    requires Locations(locMap, ds).Some?
    ensures var r := Locations(locMap, ds).value;
            (forall i, j :: 0 <= i < j < |r| ==> StrLess(r[i].locationCode, r[j].locationCode))
            && (forall k :: 0 <= k < |r| ==> r[k].locationCode in Parents(ds))
            && forall i :: 0 <= i < |ds| && Located(ds[i]) ==>
                 exists k :: 0 <= k < |r| && r[k].locationCode == ParentOf(ds[i])
  {
    ParentsMembers(ds);
    var ps := SortedDistinct(Parents(ds));
    var r := Locations(locMap, ds).value;
    assert forall k :: 0 <= k < |r| ==> r[k].locationCode == ps[k];
    forall i | 0 <= i < |ds| && Located(ds[i])
      ensures exists k :: 0 <= k < |r| && r[k].locationCode == ParentOf(ds[i])
    {
      var c := ParentOf(ds[i]);
      assert c in Parents(ds);
      var k :| 0 <= k < |ps| && ps[k] == c;
      assert r[k].locationCode == c;
    }
  }

  /** A parent's device count is at most its number of deployments, and
      positive exactly when one of them names a device. */
  lemma ChoiceForCount(locMap: map<string, string>, ds: seq<Deployment>, p: string)
    ensures var c := ChoiceFor(locMap, ds, p);
            var at := AtParent(ds, p);
            c.locationCode == p
            && c.deviceCount <= |at|
            && (c.deviceCount > 0 <==> exists i :: 0 <= i < |at| && at[i].deviceCode.Some? && at[i].deviceCode.value != "")
  {
    var at := AtParent(ds, p);
    DeviceCodesBound(at);
    DeviceCodesMembers(at);
    if |DeviceCodes(at)| > 0 {
      var c :| c in DeviceCodes(at);
    }
  }

  /** Every listed parent has at least one deployment, so the first
      deployment the naming reads always exists. */
  lemma LocationsFirstDeployment(locMap: map<string, string>, ds: seq<Deployment>, p: string)
    requires p in SortedDistinct(Parents(ds))
    ensures AtParent(ds, p) != []
  {
    AtParentNonEmpty(ds, p);
  }

  // ---------------------------------------------------------------------------
  // list_hydrophone_locations
  // ---------------------------------------------------------------------------

  /** The grouping and naming part of `list_hydrophone_locations`, over the
      location map and the deployment records the archive returned. The
      final sort by `locationCode` is left implicit: the entries are built
      in strictly increasing code order, so it changes nothing. */
  method ListHydrophoneLocations(locMap: map<string, string>, deployments: seq<Deployment>)
    returns (r: Option<seq<Choice>>)
    ensures r == Locations(locMap, deployments)
  {
    var byParent, found := GroupByParent(deployments);
    if byParent == map[] {
      return None;
    }
    var sortedCodes := SortedDistinct(found);
    var q :| q in byParent;
    assert q in sortedCodes;
    var choices := BuildChoices(locMap, deployments, byParent, sortedCodes);
    r := Some(choices);
  }

  /** The naming loop: one entry per code of `codes`, in that order. */
  method BuildChoices(locMap: map<string, string>, deployments: seq<Deployment>,
                      byParent: map<string, seq<Deployment>>, codes: seq<string>)
    returns (choices: seq<Choice>)
    requires forall p :: p in codes ==> p in byParent && byParent[p] == AtParent(deployments, p)
    ensures choices == seq(|codes|, k requires 0 <= k < |codes| => ChoiceFor(locMap, deployments, codes[k]))
  {
    choices := [];
    var j := 0;
    while j < |codes|
      invariant 0 <= j <= |codes|
      invariant |choices| == j
      invariant forall k :: 0 <= k < j ==> choices[k] == ChoiceFor(locMap, deployments, codes[k])
    {
      var p := codes[j];
      var choice := ParentChoice(locMap, p, byParent[p]);
      choices := choices + [choice];
      j := j + 1;
    }
  }

  /** `byParent` holds, for each parent code met in `ds`, that parent's
      deployments in order, and `found` lists the parent codes as met. */
  ghost predicate Grouped(ds: seq<Deployment>, byParent: map<string, seq<Deployment>>, found: seq<string>) {
    found == Parents(ds)
    && (forall p :: p in byParent <==> p in found)
    && forall p :: p in byParent ==> byParent[p] == AtParent(ds, p)
  }

  /** The grouping loop: the deployments of each parent code in input order,
      and the parent codes as they were met. */
  method GroupByParent(deployments: seq<Deployment>)
    returns (byParent: map<string, seq<Deployment>>, found: seq<string>)
    ensures found == Parents(deployments)
    ensures forall p :: p in byParent <==> p in found
    ensures forall p :: p in byParent ==> byParent[p] == AtParent(deployments, p)
    ensures byParent == map[] <==> found == []
  {
    byParent := map[];
    found := [];
    var i := 0;
    while i < |deployments|
      invariant 0 <= i <= |deployments|
      invariant Grouped(deployments[..i], byParent, found)
    {
      var d := deployments[i];
      GroupedStep(deployments, i, byParent, found);
      if d.locationCode.Some? && d.locationCode.value != "" {
        var code := d.locationCode.value;
        var parent := code;
        if '.' in code {
          parent := Split(code, '.')[0];
        }
        assert parent == ParentCode(code);
        var before := if parent in byParent then byParent[parent] else [];
        byParent := byParent[parent := before + [d]];
        found := found + [parent];
      }
      i := i + 1;
    }
    assert deployments[..i] == deployments;
    assert found != [] ==> found[0] in byParent;
  }

  /** One turn of the grouping loop keeps `Grouped`. */
  lemma GroupedStep(ds: seq<Deployment>, i: nat, byParent: map<string, seq<Deployment>>, found: seq<string>)
    requires i < |ds| && Grouped(ds[..i], byParent, found)
    ensures !Located(ds[i]) ==> Grouped(ds[..i + 1], byParent, found)
    ensures Located(ds[i]) ==>
              var p := ParentOf(ds[i]);
              Grouped(ds[..i + 1], byParent[p := (if p in byParent then byParent[p] else []) + [ds[i]]], found + [p])
  {
    AtParentStep(ds, i);
    if Located(ds[i]) {
      var p := ParentOf(ds[i]);
      if p !in byParent && AtParent(ds[..i], p) != [] {
        AtParentMember(ds[..i], p);
      }
    }
  }

  lemma AtParentStep(ds: seq<Deployment>, i: nat)
    requires i < |ds|
    ensures Parents(ds[..i + 1]) == if Located(ds[i]) then Parents(ds[..i]) + [ParentOf(ds[i])] else Parents(ds[..i])
    ensures forall p :: AtParent(ds[..i + 1], p) ==
              if Located(ds[i]) && ParentOf(ds[i]) == p then AtParent(ds[..i], p) + [ds[i]] else AtParent(ds[..i], p)
  {
    assert ds[..i + 1][..i] == ds[..i];
  }

  lemma {:induction false} AtParentMember(ds: seq<Deployment>, p: string)
    requires AtParent(ds, p) != []
    ensures p in Parents(ds)
  {
    AtParentMembers(ds, p);
    ParentsMembers(ds);
    var d := AtParent(ds, p)[0];
    assert d in AtParent(ds, p);
    var i :| 0 <= i < |ds| && ds[i] == d;
  }

  /** The naming and device count of one parent from its deployments. */
  method ParentChoice(locMap: map<string, string>, p: string, at: seq<Deployment>) returns (c: Choice)
    ensures c == ChoiceOf(locMap, p, at)
  {
    var displayName: Option<string> := None;
    var parentMapName := if p in locMap then Some(locMap[p]) else None;
    var isGeneric := false;
    if parentMapName.Some? && parentMapName.value != "" {
      if parentMapName.value in GenericMapNames {
        isGeneric := true;
      } else {
        displayName := Some(parentMapName.value);
      }
    }
    if displayName.None? && at != [] {
      var citationName := ExtractName(at[0].citation);
      if citationName.Some? && citationName.value != "" {
        displayName := citationName;
      }
    }
    if displayName.None? {
      if parentMapName.Some? && parentMapName.value != "" && isGeneric {
        displayName := parentMapName;
      } else {
        displayName := Some(p);
      }
    }
    var codes: set<string> := {};
    var k := 0;
    while k < |at|
      invariant 0 <= k <= |at|
      invariant codes == DeviceCodes(at[..k])
    {
      assert at[..k + 1][..k] == at[..k];
      if at[k].deviceCode.Some? && at[k].deviceCode.value != "" {
        codes := codes + {at[k].deviceCode.value};
      }
      k := k + 1;
    }
    assert at[..k] == at;
    c := Choice(p, displayName.value, |codes|);
  }
}
