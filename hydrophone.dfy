/** The hydrophone monitor's per-device verdict (Hydrophone.py): the data
    types a device is expected to produce, the status it gets from its
    coverage analysis and its divert history, the dashboard's colour and
    icon for each status, and the status counts of the summary. The file
    listing fetched from the data archive, the clock and the environment
    settings are parameters. */
module Hydrophone {
  import opened Text
  import opened Coverage
  import opened DivertPeriods
  import DivertStatus
  import DivertParser

  type StatusInfo = DivertStatus.StatusInfo

  // ---------------------------------------------------------------------------
  // Device capabilities
  // ---------------------------------------------------------------------------

  const DataTypes: seq<string> := ["wav", "fft", "mp3", "flac", "mat"]

  /** The fallback for devices without a capability entry. */
  const CriticalDataTypes: seq<string> := ["fft", "flac", "mat"]

  /** The JASCO recorders, which all produce `flac` and `mat`. */
  const JascoDevices: set<string> := {
    "JASCOAMARHYDROPHONEE000186", "JASCOAMARHYDROPHONED001022",
    "JASCOAMARHYDROPHONED001025", "JASCOAMARHYDROPHONEE000029"}

  /** The devices with an entry in the capability table. */
  const KnownDevices: set<string> := {"ICLISTENHF1354", "ICLISTENHF1561"} + JascoDevices

  /** `get_expected_data_types`: the capability table's entry on an exact
      device code match, the fallback otherwise. */
  function ExpectedDataTypes(device: string): seq<string> {
    if device == "ICLISTENHF1354" then ["fft"]
    else if device == "ICLISTENHF1561" then ["fft", "flac"]
    else if device in JascoDevices then ["flac", "mat"]
    else CriticalDataTypes
  }

  predicate Distinct(s: seq<string>) {
    forall i, j :: 0 <= i < j < |s| ==> s[i] != s[j]
  }

  /** What a list of expected types must be: non-empty, no type twice, only
      known types. */
  predicate WellFormedTypes(types: seq<string>) {
    types != [] && Distinct(types) && forall t :: t in types ==> t in DataTypes
  }

  /** Every device expects a well-formed list of types, and the fallback
      exactly when it has no capability entry. */
  lemma ExpectedDataTypesShape(device: string)
    ensures WellFormedTypes(ExpectedDataTypes(device))
    ensures device in KnownDevices <==> ExpectedDataTypes(device) != CriticalDataTypes
  {
    var r := ExpectedDataTypes(device);
    assert r == ["fft"] || r == ["fft", "flac"] || r == ["flac", "mat"] || r == CriticalDataTypes;
  }

  // ---------------------------------------------------------------------------
  // Statuses, colours and icons
  // ---------------------------------------------------------------------------

  datatype Level = Good | Minor | Warning | Critical | Diverted | Error

  /** The `overall_status` string. */
  function LevelName(l: Level): string {
    match l
    case Good => "good"
    case Minor => "minor"
    case Warning => "warning"
    case Critical => "critical"
    case Diverted => "diverted"
    case Error => "error"
  }

  /** Which of the six statuses a string names, if any. */
  function ParseLevel(status: string): Option<Level> {
    if status == "good" then Some(Good)
    else if status == "minor" then Some(Minor)
    else if status == "warning" then Some(Warning)
    else if status == "critical" then Some(Critical)
    else if status == "diverted" then Some(Diverted)
    else if status == "error" then Some(Error)
    else None
  }

  /** Status names and the statuses they name correspond one to one. */
  lemma ParseLevelName(l: Level, status: string)
    ensures ParseLevel(LevelName(l)) == Some(l)
    ensures ParseLevel(status) == Some(l) <==> status == LevelName(l)
  {
  }

  const Gray: string := "#6c757d"

  /** The colour table of `get_status_color`. */
  function Color(l: Level): string {
    match l
    case Good => "#28a745"
    case Minor => "#ffc107"
    case Warning => "#fd7e14"
    case Critical => "#dc3545"
    case Diverted => "#6f42c1"
    case Error => Gray
  }

  /** The icon table of `get_status_icon`. */
  function Icon(l: Level): string {
    match l
    case Good => "\U{2713}"
    case Minor => "\U{26A0}"
    case Warning => "\U{26A0}"
    case Critical => "\U{2717}"
    case Diverted => "\U{1F504}"
    case Error => "?"
  }

  /** `get_status_color`: the table's colour, gray for anything else. */
  function StatusColor(status: string): string {
    match ParseLevel(status)
    case Some(l) => Color(l)
    case None => Gray
  }

  /** `get_status_icon`: the table's icon, `?` for anything else. */
  function StatusIcon(status: string): string {
    match ParseLevel(status)
    case Some(l) => Icon(l)
    case None => "?"
  }

  /** The six statuses have six different colours. */
  lemma StatusColorsDistinct(a: Level, b: Level)
    requires a != b
    ensures StatusColor(LevelName(a)) != StatusColor(LevelName(b))
  {
    ParseLevelName(a, LevelName(a));
    ParseLevelName(b, LevelName(b));
    assert Color(a)[1] != Color(b)[1] || Color(a)[2] != Color(b)[2];
  }

  /** Only `minor` and `warning` share an icon. */
  lemma StatusIconsShared(a: Level, b: Level)
    requires a != b
    ensures StatusIcon(LevelName(a)) == StatusIcon(LevelName(b)) <==> {a, b} == {Minor, Warning}
  {
    ParseLevelName(a, LevelName(a));
    ParseLevelName(b, LevelName(b));
  }

  /** A status string that is none of the six is drawn like `error`. */
  lemma UnknownStatusLooksLikeError(status: string)
    requires forall l :: status != LevelName(l)
    ensures StatusColor(status) == StatusColor(LevelName(Error)) == Gray
    ensures StatusIcon(status) == StatusIcon(LevelName(Error)) == "?"
  {
    assert status != LevelName(Good) && status != LevelName(Minor) && status != LevelName(Warning);
    assert status != LevelName(Critical) && status != LevelName(Diverted) && status != LevelName(Error);
    ParseLevelName(Error, LevelName(Error));
  }

  // ---------------------------------------------------------------------------
  // Divert explanation
  // ---------------------------------------------------------------------------

  /** `divert_explanation`. */
  datatype Explanation = Explanation(
    divertPercentage: real,
    explainedMissing: real,
    avgCoverageDeficit: real,
    periodsCount: nat,
    totalDivertTime: int)

  /** `max(0, 100 - avg_coverage)`. */
  function Deficit(avg: real): real {
    if 100.0 - avg > 0.0 then 100.0 - avg else 0.0
  }

  function TotalDeficit(avgs: seq<real>): real {
    if avgs == [] then 0.0 else TotalDeficit(avgs[..|avgs| - 1]) + Deficit(avgs[|avgs| - 1])
  }

  /** `total_coverage_deficit / len(expected_data_types)`, 0 without types. */
  function AverageDeficit(avgs: seq<real>): real {
    if avgs == [] then 0.0 else TotalDeficit(avgs) / |avgs| as real
  }

  lemma {:induction false} TotalDeficitBounds(avgs: seq<real>)
    requires forall i :: 0 <= i < |avgs| ==> avgs[i] >= 0.0
    ensures 0.0 <= TotalDeficit(avgs) <= 100.0 * |avgs| as real
  {
    if avgs != [] {
      var n := |avgs| - 1;
      TotalDeficitBounds(avgs[..n]);
      assert 100.0 * |avgs| as real == 100.0 * n as real + 100.0;
    }
  }

  /** With non-negative average coverage the average deficit is a
      percentage. */
  lemma AverageDeficitBounds(avgs: seq<real>)
    requires forall i :: 0 <= i < |avgs| ==> avgs[i] >= 0.0
    ensures 0.0 <= AverageDeficit(avgs) <= 100.0
  {
    if avgs != [] {
      TotalDeficitBounds(avgs);
      var n := |avgs| as real;
      assert TotalDeficit(avgs) / n * n == TotalDeficit(avgs);
    }
  }

  /** The explanation drawn from the divert statistics of the analysis
      window: only with at least one period, a non-empty window (otherwise
      Python divides by zero and drops the explanation) and more than 5%
      of the time diverted. */
  function Explain(stats: Statistics, n: int, avgs: seq<real>): Option<Explanation> {
    if stats.totalPeriods > 0 && n != 0 && stats.divertPercentage > 5.0 then
      var deficit := AverageDeficit(avgs);
      Some(Explanation(stats.divertPercentage,
                       if stats.divertPercentage <= deficit then stats.divertPercentage else deficit,
                       deficit, stats.divertPeriodsCount, stats.totalDivertTime))
    else None
  }

  /** The explained share is at most the diverted share and at most the
      average deficit, and lies between 0 and 100. */
  lemma ExplainBounds(stats: Statistics, n: int, avgs: seq<real>)
    requires Explain(stats, n, avgs).Some?
    requires forall i :: 0 <= i < |avgs| ==> avgs[i] >= 0.0
    ensures var x := Explain(stats, n, avgs).value;
            x.explainedMissing <= x.divertPercentage && x.explainedMissing <= x.avgCoverageDeficit
            && 0.0 <= x.explainedMissing <= 100.0
  {
    AverageDeficitBounds(avgs);
  }

  /** The loop summing the per-type deficits. */
  method TotalCoverageDeficit(avgs: seq<real>) returns (total: real)
    ensures total == TotalDeficit(avgs)
  {
    total := 0.0;
    var i := 0;
    while i < |avgs|
      invariant 0 <= i <= |avgs|
      invariant total == TotalDeficit(avgs[..i])
    {
      assert avgs[..i + 1][..i] == avgs[..i];
      var deficit := if 100.0 - avgs[i] > 0.0 then 100.0 - avgs[i] else 0.0;
      total := total + deficit;
      i := i + 1;
    }
    assert avgs[..i] == avgs;
  }

  // ---------------------------------------------------------------------------
  // The status waterfall
  // ---------------------------------------------------------------------------

  /** `int(total_seconds / 86400)`: whole days, truncated toward zero. */
  function WholeDays(seconds: int): int {
    if seconds >= 0 then seconds / 86400 else -((-seconds) / 86400)
  }

  /** The status when diversions explain more than 20% of the missing
      coverage: only what diversions leave unexplained counts. */
  function ExplainedLevel(x: Explanation, recentDivertPercentage: real, poorDays: nat, recentPoorDays: nat): Level {
    var unexplainedMissing := Max(0, poorDays - WholeDays(x.totalDivertTime));
    var unexplainedRecent := if recentDivertPercentage > 15.0 then Max(0, recentPoorDays - 1) else recentPoorDays;
    if unexplainedRecent >= 2 && unexplainedMissing >= 3 then Warning
    else if unexplainedRecent >= 1 || unexplainedMissing >= 2 then Minor
    else Good
  }

  /** The first matching rule decides. */
  function Decide(isDiverted: bool, explanation: Option<Explanation>, recentDivertPercentage: real,
                  poorDays: nat, recentPoorDays: nat, recentlyMissing: nat): Level
  {
    if isDiverted then Diverted
    else if explanation.Some? && explanation.value.explainedMissing > 20.0 then
      ExplainedLevel(explanation.value, recentDivertPercentage, poorDays, recentPoorDays)
    else if recentPoorDays >= 3 then Critical
    else if recentPoorDays >= 2 then Warning
    else if recentlyMissing >= 2 then Warning
    else if recentlyMissing >= 1 then Minor
    else Good
  }

  /** How bad a data problem is. */
  function Severity(l: Level): nat {
    match l
    case Good => 0
    case Minor => 1
    case Warning => 2
    case Critical => 3
    case Diverted => 0
    case Error => 4
  }

  predicate Explains(explanation: Option<Explanation>) {
    explanation.Some? && explanation.value.explainedMissing > 20.0
  }

  /** A device is `diverted` exactly when it is currently diverted, whatever
      its coverage. */
  lemma DecideDiverted(isDiverted: bool, explanation: Option<Explanation>, recentDivertPercentage: real,
                       poorDays: nat, recentPoorDays: nat, recentlyMissing: nat)
    ensures Decide(isDiverted, explanation, recentDivertPercentage, poorDays, recentPoorDays, recentlyMissing) == Diverted
            <==> isDiverted
  {
  }

  /** `critical` needs three poor recent days and no diversion covering
      them; explained gaps are at worst a `warning`. */
  lemma DecideCritical(isDiverted: bool, explanation: Option<Explanation>, recentDivertPercentage: real,
                       poorDays: nat, recentPoorDays: nat, recentlyMissing: nat)
    ensures Decide(isDiverted, explanation, recentDivertPercentage, poorDays, recentPoorDays, recentlyMissing) == Critical
            <==> !isDiverted && !Explains(explanation) && recentPoorDays >= 3
    ensures !isDiverted && Explains(explanation)
            ==> Decide(isDiverted, explanation, recentDivertPercentage, poorDays, recentPoorDays, recentlyMissing)
                in {Good, Minor, Warning}
  {
  }

  /** No poor recent day and no recently missing type is `good` unless a
      diversion is in play. */
  lemma DecideAllClear(explanation: Option<Explanation>, recentDivertPercentage: real, poorDays: nat)
    requires !Explains(explanation)
    ensures Decide(false, explanation, recentDivertPercentage, poorDays, 0, 0) == Good
  {
  }

  /** More poor days, more poor recent days or more recently missing types
      never make the verdict milder. */
  lemma DecideMonotone(explanation: Option<Explanation>, recentDivertPercentage: real,
                       poor1: nat, recent1: nat, missing1: nat, poor2: nat, recent2: nat, missing2: nat)
    requires poor1 <= poor2 && recent1 <= recent2 && missing1 <= missing2
    ensures Severity(Decide(false, explanation, recentDivertPercentage, poor1, recent1, missing1))
            <= Severity(Decide(false, explanation, recentDivertPercentage, poor2, recent2, missing2))
  {
    if Explains(explanation) {
      var x := explanation.value;
      var days := WholeDays(x.totalDivertTime);
      assert Max(0, poor1 - days) <= Max(0, poor2 - days);
    }
  }

  /** A recent divert share above 15% forgives one poor recent day. */
  lemma RecentDivertForgivesOneDay(x: Explanation, poorDays: nat)
    requires x.explainedMissing > 20.0 && poorDays <= WholeDays(x.totalDivertTime) + 1
    ensures Decide(false, Some(x), 16.0, poorDays, 1, 0) == Good
    ensures Decide(false, Some(x), 15.0, poorDays, 1, 0) == Minor
  {
  }

  // ---------------------------------------------------------------------------
  // One device
  // ---------------------------------------------------------------------------

  /** What the divert parser tells about one location: its current status
      record, and the divert statistics over the analysis window and over
      the last three days. */
  datatype DivertView = DivertView(info: Option<StatusInfo>, window: Statistics, recent: Statistics)

  /** The `status` dictionary of one device. */
  datatype DeviceStatus = DeviceStatus(
    overallStatus: Level,
    daysSinceLastData: int,
    missingDataTypes: seq<string>,
    totalMissingDays: nat,
    lastDataDate: Option<int>,
    divertStatus: Option<StatusInfo>,
    isDiverted: bool,
    daysMissingPerType: seq<nat>,
    coveragePerType: seq<real>,
    expectedFilesPerDay: seq<nat>,
    divertExplanation: Option<Explanation>)

  const RecentDays: nat := 3

  const SecondsPerDay: int := 86400

  function ExpectedAll(counts: Counts, types: seq<string>): (exps: seq<nat>)
    ensures Expectations(types, exps)
    ensures forall i :: 0 <= i < |types| ==> exps[i] == ExpectedPerDay(counts, types[i])
  {
    seq(|types|, i requires 0 <= i < |types| => ExpectedPerDay(counts, types[i]))
  }

  function MissedAll(counts: Counts, types: seq<string>, exps: seq<nat>, today: int, k: nat): (r: seq<nat>)
    requires |types| == |exps|
    ensures |r| == |types|
    ensures forall i :: 0 <= i < |types| ==> r[i] == MissedDays(counts, types[i], exps[i], today, k)
  {
    seq(|types|, i requires 0 <= i < |types| => MissedDays(counts, types[i], exps[i], today, k))
  }

  function CoverageAll(counts: Counts, types: seq<string>, exps: seq<nat>, today: int, k: nat): (r: seq<seq<real>>)
    requires Expectations(types, exps)
    ensures |r| == |types|
    ensures forall i :: 0 <= i < |types| ==> r[i] == CoverageSeries(counts, types[i], exps[i], today, k)
  {
    seq(|types|, i requires 0 <= i < |types| => CoverageSeries(counts, types[i], exps[i], today, k))
  }

  function MeanAll(coverage: seq<seq<real>>): (r: seq<real>)
    ensures |r| == |coverage|
    ensures forall i :: 0 <= i < |coverage| ==> r[i] == Mean(coverage[i])
  {
    seq(|coverage|, i requires 0 <= i < |coverage| => Mean(coverage[i]))
  }

  /** What the file listing shows over the analysis window and over the
      last three days. */
  datatype Measures = Measures(
    exps: seq<nat>,
    missing: seq<nat>,
    poorDays: nat,
    avgs: seq<real>,
    frequentlyMissing: seq<string>,
    daysSince: int,
    recentPoor: nat,
    recentlyMissing: nat)

  function Measure(types: seq<string>, sc: Scan, now: int, n: int): Measures {
    var today := now / SecondsPerDay;
    var days := if n > 0 then n else 0;
    var exps := ExpectedAll(sc.counts, types);
    var missing := MissedAll(sc.counts, types, exps, today, days);
    Measures(exps, missing, PoorDays(sc.counts, types, exps, today, days),
             MeanAll(CoverageAll(sc.counts, types, exps, today, days)),
             MissedMoreThan(types, missing, n / 2),
             if sc.last.Some? then today - sc.last.value else n,
             PoorDays(sc.counts, types, exps, today, RecentDays),
             |MissedMoreThan(types, MissedAll(sc.counts, types, exps, today, RecentDays), 1)|)
  }

  /** The status from the measures and the divert view. */
  function Judge(m: Measures, last: Option<int>, divert: Option<DivertView>, n: int): (r: DeviceStatus)
    ensures r.overallStatus != Error
    ensures r.overallStatus == Diverted <==> r.isDiverted
  {
    var info := if divert.Some? then divert.value.info else None;
    var explanation := if divert.Some? then Explain(divert.value.window, n, m.avgs) else None;
    var recentPercentage := if divert.Some? then divert.value.recent.divertPercentage else 0.0;
    var isDiverted := info.Some? && info.value.status == "Divert";
    DeviceStatus(
      Decide(isDiverted, explanation, recentPercentage, m.poorDays, m.recentPoor, m.recentlyMissing),
      m.daysSince, m.frequentlyMissing, m.poorDays, last, info, isDiverted,
      m.missing, m.avgs, m.exps, explanation)
  }

  /** The analysis of a listing that was read without error. */
  function Analyse(types: seq<string>, sc: Scan, divert: Option<DivertView>, now: int, n: int): (r: DeviceStatus)
    ensures r.overallStatus != Error
    ensures r.lastDataDate == sc.last
    ensures r.daysSinceLastData == if sc.last.Some? then now / SecondsPerDay - sc.last.value else n
  {
    Judge(Measure(types, sc, now, n), sc.last, divert, n)
  }

  /** `check_data_availability` for a device expecting `types`, its
      fetched file listing, the divert parser's view of its location, the time `now` in seconds
      and the window length `n` (`CHECK_LAST_N_DAYS`). */
  function Assess(types: seq<string>, files: seq<FileInfo>, divert: Option<DivertView>, now: int, n: int): DeviceStatus {
    var scan := ScanFiles(Digests(files), types);
    if scan.None? then Failed(divert) else Analyse(types, scan.value, divert, now, n)
  }

  /** The status left when reading the listing raised: the defaults, with
      the divert status already looked up. */
  function Failed(divert: Option<DivertView>): DeviceStatus {
    var info := if divert.Some? then divert.value.info else None;
    DeviceStatus(Error, 0, [], 0, None, info, info.Some? && info.value.status == "Divert", [], [], [], None)
  }

  /** What `get_divert_statistics` returns for a window ending now. */
  function WindowStatistics(parser: DivertParser.GmailDivertParser, code: string, start: int, now: int): Statistics
    reads parser
  {
    StatisticsOf(code, SelectPeriods(DivertStatus.PeriodsOf(parser.divertPeriods, code), Some(start), Some(now), now),
                 Some(start), Some(now), now)
  }

  /** What the monitor asks the divert parser about a location. */
  function ViewOf(parser: DivertParser.GmailDivertParser?, code: string, now: int, n: int): Option<DivertView>
    reads parser
  {
    if parser == null then None
    else Some(DivertView(parser.GetLocationDivertInfo(code),
                         WindowStatistics(parser, code, now - n * SecondsPerDay, now),
                         WindowStatistics(parser, code, now - RecentDays * SecondsPerDay, now)))
  }

  // ---------------------------------------------------------------------------
  // What the verdict means
  // ---------------------------------------------------------------------------

  /** A device is reported as `error` exactly when a listed record has a
      malformed `dateFrom`. */
  lemma AssessError(types: seq<string>, files: seq<FileInfo>, divert: Option<DivertView>, now: int, n: int)
    ensures Assess(types, files, divert, now, n).overallStatus == Error
            <==> exists i :: 0 <= i < |files| && BadDate(files[i])
  {
    var es := Digests(files);
    var scan := ScanFiles(es, types);
    ScanFilesFails(es, types);
    forall i | 0 <= i < |files|
      ensures es[i].day.Malformed? <==> BadDate(files[i])
    {
    }
    if scan.Some? {
      var sc := scan.value;
      assert Assess(types, files, divert, now, n) == Judge(Measure(types, sc, now, n), sc.last, divert, n);
    }
  }

  /** Without an error, the device is `diverted` exactly when the parser's
      current status for its location is `Divert`. */
  lemma AssessDiverted(types: seq<string>, files: seq<FileInfo>, divert: Option<DivertView>, now: int, n: int)
    requires Assess(types, files, divert, now, n).overallStatus != Error
    ensures Assess(types, files, divert, now, n).overallStatus == Diverted
            <==> divert.Some? && divert.value.info.Some? && divert.value.info.value.status == "Divert"
  {
    var scan := ScanFiles(Digests(files), types);
    assert scan.Some?;
    assert Assess(types, files, divert, now, n) == Analyse(types, scan.value, divert, now, n);
  }

  /** The counts never exceed the window: each type is missed on at most
      `n` days, at most `n` days are poor, every expectation is at least 4
      files, and the frequently missing types are expected types missed on
      more than half the days. */
  lemma AssessBounds(types: seq<string>, files: seq<FileInfo>, divert: Option<DivertView>, now: int, n: int)
    requires Assess(types, files, divert, now, n).overallStatus != Error
    ensures var s := Assess(types, files, divert, now, n);
            var days := if n > 0 then n else 0;
            s.totalMissingDays <= days
            && |s.daysMissingPerType| == |types| == |s.coveragePerType| == |s.expectedFilesPerDay|
            && (forall i :: 0 <= i < |types| ==>
                  s.daysMissingPerType[i] <= days && s.expectedFilesPerDay[i] >= 4 && s.coveragePerType[i] >= 0.0)
            && (forall t :: t in s.missingDataTypes
                  <==> exists i :: 0 <= i < |types| && types[i] == t && s.daysMissingPerType[i] > n / 2)
  {
    var s := Assess(types, files, divert, now, n);
    var sc := ScanFiles(Digests(files), types).value;
    var today := now / SecondsPerDay;
    var days := if n > 0 then n else 0;
    var exps := ExpectedAll(sc.counts, types);
    assert s == Analyse(types, sc, divert, now, n);
    forall i | 0 <= i < |types|
      ensures s.coveragePerType[i] >= 0.0
    {
      MeanCoverage(sc.counts, types[i], exps[i], today, days);
    }
    forall t {
      MissedMoreThanMembers(types, s.daysMissingPerType, n / 2, t);
    }
  }

  /** `days_since_last_data` counts from the newest day of a listed file of
      an expected type, and is `n` when there is none. */
  lemma AssessLastData(types: seq<string>, files: seq<FileInfo>, divert: Option<DivertView>, now: int, n: int)
    requires Assess(types, files, divert, now, n).overallStatus != Error
    ensures var s := Assess(types, files, divert, now, n);
            var es := Digests(files);
            s.lastDataDate.Some? ==>
              s.daysSinceLastData == now / SecondsPerDay - s.lastDataDate.value
              && (exists i :: 0 <= i < |files| && Counted(es[i], types) && es[i].day.day == s.lastDataDate.value)
              && forall i :: 0 <= i < |files| && Counted(es[i], types) ==> es[i].day.day <= s.lastDataDate.value
  {
    ScanLast(Digests(files), types);
  }

  /** No date of last data exactly when no listed file counts; the days
      since then are the whole window. */
  lemma AssessNoData(types: seq<string>, files: seq<FileInfo>, divert: Option<DivertView>, now: int, n: int)
    requires Assess(types, files, divert, now, n).overallStatus != Error
    ensures var s := Assess(types, files, divert, now, n);
            var es := Digests(files);
            (s.lastDataDate.None? <==> forall i :: 0 <= i < |files| ==> !Counted(es[i], types))
            && (s.lastDataDate.None? ==> s.daysSinceLastData == n)
  {
    ScanLast(Digests(files), types);
  }


  /** `critical` means all three recent days were poor. */
  lemma AssessCritical(types: seq<string>, files: seq<FileInfo>, divert: Option<DivertView>, now: int, n: int)
    requires Assess(types, files, divert, now, n).overallStatus == Critical
    ensures var sc := ScanFiles(Digests(files), types);
            sc.Some?
            && forall d :: now / SecondsPerDay - 3 < d <= now / SecondsPerDay
                 ==> !Covered(sc.value.counts, d, types, ExpectedAll(sc.value.counts, types))
  {
    var sc := ScanFiles(Digests(files), types).value;
    var exps := ExpectedAll(sc.counts, types);
    var today := now / SecondsPerDay;
    var s := Assess(types, files, divert, now, n);
    assert s == Analyse(types, sc, divert, now, n);
    AllPoor(sc.counts, types, exps, today, RecentDays);
  }

  // ---------------------------------------------------------------------------
  // The check
  // ---------------------------------------------------------------------------


  /** `check_data_availability`. */
  method CheckDataAvailability(device: string, location: string, files: seq<FileInfo>,
                               parser: DivertParser.GmailDivertParser?, now: int, n: int)
    returns (s: DeviceStatus)
    ensures s == Assess(ExpectedDataTypes(device), files, ViewOf(parser, location, now, n), now, n)
  {
    var info: Option<StatusInfo> := None;
    if parser != null {
      info := parser.GetLocationDivertInfo(location);
    }
    var isDiverted := info.Some? && info.value.status == "Divert";
    var types := ExpectedDataTypes(device);
    var ok, counts, last := CountFiles(files, types);
    if !ok {
      s := DeviceStatus(Error, 0, [], 0, None, info, isDiverted, [], [], [], None);
      return;
    }
    var m := MeasureFiles(types, counts, last, now, n);
    var explanation, level := Verdict(parser, location, now, n, isDiverted, m.avgs, m.poorDays, m.recentPoor, m.recentlyMissing);
    s := DeviceStatus(level, m.daysSince, m.frequentlyMissing, m.poorDays, last, info, isDiverted,
                      m.missing, m.avgs, m.exps, explanation);
  }

  /** The coverage analysis of the counted files. */
  method MeasureFiles(types: seq<string>, counts: Counts, last: Option<int>, now: int, n: int) returns (m: Measures)
    ensures m == Measure(types, Scan(counts, last), now, n)
  {
    var exps := ExpectedFilesPerDay(counts, types);
    assert exps == ExpectedAll(counts, types);
    var today := now / SecondsPerDay;
    var days := if n > 0 then n else 0;
    var missing, coverage, poor := ScanWindow(counts, types, exps, today, days);
    assert missing == MissedAll(counts, types, exps, today, days);
    assert coverage == CoverageAll(counts, types, exps, today, days);
    var frequentlyMissing := FrequentlyMissing(types, missing, n);
    var avgs := AverageCoverage(coverage);
    assert avgs == MeanAll(coverage);
    var daysSince := if last.Some? then today - last.value else n;
    var recentMissing, _, recentPoor := ScanWindow(counts, types, exps, today, RecentDays);
    assert recentMissing == MissedAll(counts, types, exps, today, RecentDays);
    var recentlyMissing := MissedMoreThan(types, recentMissing, 1);
    m := Measures(exps, missing, poor, avgs, frequentlyMissing, daysSince, recentPoor, |recentlyMissing|);
  }

  /** The divert analysis and the status waterfall. */
  method Verdict(parser: DivertParser.GmailDivertParser?, location: string, now: int, n: int, isDiverted: bool,
                 avgs: seq<real>, poor: nat, recentPoor: nat, recentlyMissing: nat)
    returns (explanation: Option<Explanation>, level: Level)
    ensures var view := ViewOf(parser, location, now, n);
            explanation == (if view.Some? then Explain(view.value.window, n, avgs) else None)
            && level == Decide(isDiverted, explanation, if view.Some? then view.value.recent.divertPercentage else 0.0,
                               poor, recentPoor, recentlyMissing)
  {
    explanation := ExplainWindow(parser, location, now, n, avgs);
    level := Grade(parser, location, now, n, isDiverted, explanation, poor, recentPoor, recentlyMissing);
  }

  /** The explanation of missing data by the diversions in the window. */
  method ExplainWindow(parser: DivertParser.GmailDivertParser?, location: string, now: int, n: int, avgs: seq<real>)
    returns (explanation: Option<Explanation>)
    ensures var view := ViewOf(parser, location, now, n);
            explanation == (if view.Some? then Explain(view.value.window, n, avgs) else None)
  {
    explanation := None;
    if parser != null {
      var stats := parser.GetDivertStatistics(location, Some(now - n * SecondsPerDay), Some(now), now);
      assert stats == ViewOf(parser, location, now, n).value.window;
      if stats.totalPeriods > 0 && n != 0 {
        var total := TotalCoverageDeficit(avgs);
        var avgDeficit := if |avgs| > 0 then total / |avgs| as real else 0.0;
        if stats.divertPercentage > 5.0 {
          var explained := if stats.divertPercentage <= avgDeficit then stats.divertPercentage else avgDeficit;
          explanation := Some(Explanation(stats.divertPercentage, explained, avgDeficit,
                                          stats.divertPeriodsCount, stats.totalDivertTime));
        }
      }
    }
  }

  /** The level, rule by rule. */
  method Grade(parser: DivertParser.GmailDivertParser?, location: string, now: int, n: int, isDiverted: bool,
               explanation: Option<Explanation>, poor: nat, recentPoor: nat, recentlyMissing: nat)
    returns (level: Level)
    requires explanation.Some? ==> parser != null
    ensures var view := ViewOf(parser, location, now, n);
            level == Decide(isDiverted, explanation, if view.Some? then view.value.recent.divertPercentage else 0.0,
                            poor, recentPoor, recentlyMissing)
  {
    if isDiverted {
      level := Diverted;
    } else if explanation.Some? && explanation.value.explainedMissing > 20.0 {
      var recent := parser.GetDivertStatistics(location, Some(now - RecentDays * SecondsPerDay), Some(now), now);
      assert recent == ViewOf(parser, location, now, n).value.recent;
      var x := explanation.value;
      var unexplainedMissing := Max(0, poor - WholeDays(x.totalDivertTime));
      var unexplainedRecent := recentPoor;
      if recent.divertPercentage > 15.0 {
        unexplainedRecent := Max(0, recentPoor - 1);
      }
      if unexplainedRecent >= 2 && unexplainedMissing >= 3 {
        level := Warning;
      } else if unexplainedRecent >= 1 || unexplainedMissing >= 2 {
        level := Minor;
      } else {
        level := Good;
      }
    } else if recentPoor >= 3 {
      level := Critical;
    } else if recentPoor >= 2 {
      level := Warning;
    } else if recentlyMissing >= 2 {
      level := Warning;
    } else if recentlyMissing >= 1 {
      level := Minor;
    } else {
      level := Good;
    }
  }


  // ---------------------------------------------------------------------------
  // The dashboard summary
  // ---------------------------------------------------------------------------

  datatype StatusCounts = StatusCounts(critical: nat, warning: nat, minor: nat, diverted: nat, good: int)

  /** `sum(1 for ... if overall_status == status)`. */
  function CountStatus(statuses: seq<string>, status: string): (k: nat)
    ensures k <= |statuses|
  {
    if statuses == [] then 0
    else CountStatus(statuses[..|statuses| - 1], status) + (if statuses[|statuses| - 1] == status then 1 else 0)
  }

  /** The summary counts; `good` is whatever is left over. */
  function Summarize(statuses: seq<string>): StatusCounts {
    var critical := CountStatus(statuses, "critical");
    var warning := CountStatus(statuses, "warning");
    var minor := CountStatus(statuses, "minor");
    var diverted := CountStatus(statuses, "diverted");
    StatusCounts(critical, warning, minor, diverted, |statuses| - critical - warning - minor - diverted)
  }

  /** The statuses that are none of the four counted ones. */
  function Rest(statuses: seq<string>): (k: nat)
    ensures k <= |statuses|
  {
    if statuses == [] then 0
    else
      var s := statuses[|statuses| - 1];
      Rest(statuses[..|statuses| - 1])
      + (if s != "critical" && s != "warning" && s != "minor" && s != "diverted" then 1 else 0)
  }

  /** The five counts add up to the number of devices, and `good` counts
      every device that is not critical, warning, minor or diverted. */
  lemma {:induction false} SummaryPartition(statuses: seq<string>)
    ensures var c := Summarize(statuses);
            c.good == Rest(statuses) >= 0
            && c.critical + c.warning + c.minor + c.diverted + c.good == |statuses|
  {
    if statuses != [] {
      SummaryPartition(statuses[..|statuses| - 1]);
    }
  }

  /** The `overall_status` strings of a run. */
  function Names(statuses: seq<DeviceStatus>): (r: seq<string>)
    ensures |r| == |statuses|
    ensures forall i :: 0 <= i < |statuses| ==> r[i] == LevelName(statuses[i].overallStatus)
  {
    seq(|statuses|, i requires 0 <= i < |statuses| => LevelName(statuses[i].overallStatus))
  }

  function CountGoodOrError(statuses: seq<DeviceStatus>): nat {
    if statuses == [] then 0
    else
      var l := statuses[|statuses| - 1].overallStatus;
      CountGoodOrError(statuses[..|statuses| - 1]) + (if l == Good || l == Error then 1 else 0)
  }

  /** On the dashboard, devices in `error` are counted as `good`. */
  lemma {:induction false} ErrorsCountAsGood(statuses: seq<DeviceStatus>)
    ensures Summarize(Names(statuses)).good == CountGoodOrError(statuses)
  {
    SummaryPartition(Names(statuses));
    RestOfNames(statuses);
  }

  lemma {:induction false} RestOfNames(statuses: seq<DeviceStatus>)
    ensures Rest(Names(statuses)) == CountGoodOrError(statuses)
  {
    if statuses != [] {
      var n := |statuses| - 1;
      RestOfNames(statuses[..n]);
      assert Names(statuses)[..n] == Names(statuses[..n]);
    }
  }
}
