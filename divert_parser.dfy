/** The current parser object: what one refresh keeps (the notifications,
    newest first; each hydrophone's current status; each hydrophone's
    periods) and the queries answered from it. Fetching mail is outside the
    model: a refresh receives the fetched messages. */
module DivertParser {
  import opened Text
  import opened Dict
  import LocationMappings
  import opened DivertEmail
  import opened DivertPeriods
  import opened DivertStatus

  /** One email's `(code, status)` pairs recorded one by one: a code is
      (re)written when it has no status yet or the email is strictly newer. */
  method ApplyStatuses(cur: Assoc<string, StatusInfo>, pairs: seq<(string, string)>,
                       ts: Option<int>, system: Option<string>) returns (r: Assoc<string, StatusInfo>)
    requires KeysUnique(cur)
    ensures r == ResolvePairs(cur, pairs, ts, system)
  {
    r := cur;
    var i := 0;
    while i < |pairs|
      invariant 0 <= i <= |pairs|
      invariant r == ResolvePairs(cur, pairs[..i], ts, system)
    {
      assert pairs[..i + 1][..i] == pairs[..i];
      var code := pairs[i].0;
      var stored := Lookup(r, code);
      if stored.None? || (ts.Some? && stored.value.timestamp.Some? && ts.value > stored.value.timestamp.value) {
        r := Put(r, code, StatusInfo(pairs[i].1, ts, system));
      }
      i := i + 1;
    }
    assert pairs[..i] == pairs;
  }

  /** One dated email's events appended to each named hydrophone's list;
      a hydrophone met for the first time starts from the empty list. */
  method AppendEvents(acc: Assoc<string, seq<Event>>, pairs: seq<(string, string)>,
                      ts: int, system: Option<string>) returns (r: Assoc<string, seq<Event>>)
    requires KeysUnique(acc)
    ensures r == AddEvents(acc, pairs, ts, system)
  {
    r := acc;
    var i := 0;
    while i < |pairs|
      invariant 0 <= i <= |pairs|
      invariant r == AddEvents(acc, pairs[..i], ts, system)
    {
      assert pairs[..i + 1][..i] == pairs[..i];
      var code := pairs[i].0;
      r := Put(r, code, EventsOf(r, code) + [Event(ts, pairs[i].1, system)]);
      i := i + 1;
    }
    assert pairs[..i] == pairs;
  }

  /** The period loop of `_calculate_divert_periods` over one hydrophone's
      sorted events. */
  method FoldPeriods(events: seq<Event>) returns (periods: seq<Period>)
    ensures periods == BuildPeriods(events)
  {
    periods := [];
    var current: Option<Period> := None;
    var i := 0;
    while i < |events|
      invariant 0 <= i <= |events|
      invariant FoldEvents(events[..i]) == Fold(periods, current)
    {
      assert events[..i + 1][..i] == events[..i];
      var ev := events[i];
      if current.None? {
        current := Some(OpenPeriod(ev));
      } else if current.value.status != ev.status {
        periods := periods + [ClosePeriod(current.value, ev.timestamp)];
        current := Some(OpenPeriod(ev));
      }
      i := i + 1;
    }
    assert events[..i] == events;
    if current.Some? {
      periods := periods + [current.value];
    }
  }

  class GmailDivertParser {
    /** The location table the parser maps names with. */
    const table: Table
    var divertHistory: seq<ParsedEmail>
    var currentDivertStatus: Assoc<string, StatusInfo>
    var divertPeriods: Assoc<string, seq<Period>>

    /** The status and the periods are what the kept notifications give. */
    ghost predicate Valid()
      reads this
    {
      NewestFirstSorted(divertHistory)
      && currentDivertStatus == ResolveAll(table, divertHistory)
      && divertPeriods == CalculatePeriods(table, divertHistory)
    }

    constructor ()
      ensures table == LocationMappings.LocationMapping
      ensures divertHistory == [] && currentDivertStatus == [] && divertPeriods == []
      ensures Valid()
    {
      table := LocationMappings.LocationMapping;
      divertHistory := [];
      currentDivertStatus := [];
      divertPeriods := [];
    }

    /** `update_divert_status` on the fetched messages: keep the parsed
        divert notifications that name a location, newest first; record
        each hydrophone's status from the newest one naming it; rebuild
        the periods; report the counts. */
    method UpdateDivertStatus(messages: seq<Message>) returns (r: UpdateResult)
      modifies this
      ensures divertHistory == NewestFirst(ParseMessages(messages))
      ensures currentDivertStatus == ResolveAll(table, divertHistory)
      ensures divertPeriods == CalculatePeriods(table, divertHistory)
      ensures Valid()
      ensures r == UpdateResult(|divertHistory|, |currentDivertStatus|,
                                CountStatus(currentDivertStatus, "Divert"),
                                CountStatus(currentDivertStatus, "Bypass"))
    {
      var parsed := KeepParsed(messages);
      var sorted := NewestFirst(parsed);
      var status := ResolveSorted(sorted);
      currentDivertStatus := status;
      divertHistory := sorted;
      CalculateDivertPeriods();
      r := UpdateResult(|divertHistory|, |currentDivertStatus|,
                        CountStatus(currentDivertStatus, "Divert"),
                        CountStatus(currentDivertStatus, "Bypass"));
    }

    /** The message loop of `update_divert_status`. */
    static method KeepParsed(messages: seq<Message>) returns (parsed: seq<ParsedEmail>)
      ensures parsed == ParseMessages(messages)
    {
      parsed := [];
      var i := 0;
      while i < |messages|
        invariant 0 <= i <= |messages|
        invariant parsed == ParseMessages(messages[..i])
      {
        assert messages[..i + 1][..i] == messages[..i];
        var m := messages[i];
        if IsDivertSubject(m.subject) {
          var e := ParseDivertEmail(m.subject, m.body);
          if e.locations != [] {
            parsed := parsed + [e];
          }
        }
        i := i + 1;
      }
      assert messages[..i] == messages;
    }

    /** The resolution loop of `update_divert_status`. */
    method ResolveSorted(sorted: seq<ParsedEmail>) returns (status: Assoc<string, StatusInfo>)
      ensures status == ResolveAll(table, sorted)
    {
      status := [];
      var k := 0;
      while k < |sorted|
        invariant 0 <= k <= |sorted|
        invariant status == ResolveAll(table, sorted[..k])
      {
        assert sorted[..k + 1][..k] == sorted[..k];
        var e := sorted[k];
        var hs := MapLocationsToHydrophones(table, e.locations);
        status := ApplyStatuses(status, hs, e.timestamp, e.system);
        k := k + 1;
      }
      assert sorted[..k] == sorted;
    }

    /** `_calculate_divert_periods`: group the dated notifications' events
        by hydrophone, sort each group by time, fold it into periods. */
    method CalculateDivertPeriods()
      modifies this
      ensures divertPeriods == CalculatePeriods(table, divertHistory)
      ensures divertHistory == old(divertHistory) && currentDivertStatus == old(currentDivertStatus)
    {
      var events := GroupEvents(divertHistory);
      var periods := PeriodsPerHydrophone(events);
      divertPeriods := periods;
    }

    /** The per-hydrophone loop of `_calculate_divert_periods`. */
    static method PeriodsPerHydrophone(events: Assoc<string, seq<Event>>) returns (periods: Assoc<string, seq<Period>>)
      ensures periods == PeriodsFromEvents(events)
    {
      periods := [];
      var j := 0;
      while j < |events|
        invariant 0 <= j <= |events|
        invariant periods == PeriodsFromEvents(events[..j])
      {
        assert events[..j + 1][..j] == events[..j];
        var ps := FoldPeriods(SortBy(events[j].1, EventTime));
        periods := periods + [(events[j].0, ps)];
        j := j + 1;
      }
      assert events[..j] == events;
    }

    /** The grouping loop of `_calculate_divert_periods`. */
    method GroupEvents(history: seq<ParsedEmail>) returns (events: Assoc<string, seq<Event>>)
      ensures events == LocationEvents(table, history)
    {
      events := [];
      var i := 0;
      while i < |history|
        invariant 0 <= i <= |history|
        invariant events == LocationEvents(table, history[..i])
      {
        assert history[..i + 1][..i] == history[..i];
        var e := history[i];
        if e.timestamp.Some? {
          var hs := MapLocationsToHydrophones(table, e.locations);
          events := AppendEvents(events, hs, e.timestamp.value, e.system);
        }
        i := i + 1;
      }
      assert history[..i] == history;
    }

    /** `get_location_divert_info`: the status from the newest kept
        notification naming the hydrophone, if any. */
    function GetLocationDivertInfo(code: string): (r: Option<StatusInfo>)
      reads this
      ensures Valid() ==> r == FirstStatus(table, divertHistory, code)
    {
      var r := Lookup(currentDivertStatus, code);
      assert Valid() ==> r == FirstStatus(table, divertHistory, code) by {
        if Valid() {
          ResolveAllFirst(table, divertHistory, code);
        }
      }
      r
    }

    /** `is_location_diverted`: the newest kept notification naming the
        hydrophone says `Divert`. */
    function IsLocationDiverted(code: string): (r: bool)
      reads this
      ensures Valid() ==> (r <==> FirstStatus(table, divertHistory, code).Some?
                                  && FirstStatus(table, divertHistory, code).value.status == "Divert")
    {
      var info := GetLocationDivertInfo(code);
      info.Some? && info.value.status == "Divert"
    }

    /** `get_divert_summary`. */
    function GetDivertSummary(): (s: Summary)
      reads this
      ensures s.totalMonitored == |currentDivertStatus| && s.eventsProcessed == |divertHistory|
      ensures s.currentlyDiverted + s.currentlyBypass <= s.totalMonitored
    {
      DivertBypassWithinTotal(currentDivertStatus);
      Summary(|currentDivertStatus|, CountStatus(currentDivertStatus, "Divert"),
              CountStatus(currentDivertStatus, "Bypass"), |divertHistory|)
    }

    /** `get_divert_periods`: a hydrophone's periods, or with a bound given
        the ones overlapping the window (an open period ending now). */
    method GetDivertPeriods(code: string, startDate: Option<int>, endDate: Option<int>, now: int)
      returns (ps: seq<Period>)
      ensures ps == SelectPeriods(PeriodsOf(divertPeriods, code), startDate, endDate, now)
      ensures Valid() ==> Ordered(ps)
    {
      var periods := PeriodsOf(divertPeriods, code);
      ps := SelectLoop(periods, startDate, endDate, now);
      if Valid() {
        CalculatedPeriodsOrdered(code);
        FilterPeriodsOrdered(periods, startDate, endDate, now);
      }
    }

    /** The filtering loop of `get_divert_periods`. */
    static method SelectLoop(periods: seq<Period>, startDate: Option<int>, endDate: Option<int>, now: int)
      returns (ps: seq<Period>)
      ensures ps == SelectPeriods(periods, startDate, endDate, now)
    {
      if startDate.Some? || endDate.Some? {
        ps := [];
        var i := 0;
        while i < |periods|
          invariant 0 <= i <= |periods|
          invariant ps == FilterPeriods(periods[..i], startDate, endDate, now)
        {
          assert periods[..i + 1][..i] == periods[..i];
          var p := periods[i];
          var periodEnd := if p.end.Some? then p.end.value else now;
          if startDate.Some? && periodEnd < startDate.value {
          } else if endDate.Some? && p.start > endDate.value {
          } else {
            ps := ps + [p];
          }
          i := i + 1;
        }
        assert periods[..i] == periods;
      } else {
        ps := periods;
      }
    }

    lemma CalculatedPeriodsOrdered(code: string)
      requires Valid()
      ensures Ordered(PeriodsOf(divertPeriods, code))
    {
      CalculatePeriodsLookup(table, divertHistory, code);
      PeriodsForEventsWellFormed(EventsFor(table, divertHistory, code));
    }

    /** `get_divert_statistics`: divert and bypass time of the selected
        periods clipped to the analysis window. */
    method GetDivertStatistics(code: string, startDate: Option<int>, endDate: Option<int>, now: int)
      returns (s: Statistics)
      ensures s == StatisticsOf(code, SelectPeriods(PeriodsOf(divertPeriods, code), startDate, endDate, now),
                                startDate, endDate, now)
      ensures Valid() ==> s.totalDivertTime + s.totalBypassTime <= Max(0, s.totalAnalysisTime)
                          && s.divertPercentage + s.bypassPercentage <= 100.0
    {
      var periods := GetDivertPeriods(code, startDate, endDate, now);
      s := Summarize(code, periods, startDate, endDate, now);
      if Valid() {
        StatisticsWithinWindow(code, periods, startDate, endDate, now);
      }
    }

    /** The window and the totals of `get_divert_statistics` for the
        selected periods. */
    static method Summarize(code: string, periods: seq<Period>, startDate: Option<int>, endDate: Option<int>, now: int)
      returns (s: Statistics)
      ensures s == StatisticsOf(code, periods, startDate, endDate, now)
    {
      var analysisStart := if startDate.Some? then startDate.value
                           else if periods != [] then EarliestStart(periods) else now;
      var analysisEnd := if endDate.Some? then endDate.value else now;
      var t := TallyLoop(periods, analysisStart, analysisEnd, now);
      var total := analysisEnd - analysisStart;
      s := Statistics(code, analysisStart, analysisEnd, total, t.divertTime, t.bypassTime,
                      Percentage(t.divertTime, total), Percentage(t.bypassTime, total),
                      t.divertCount, t.bypassCount, |periods|);
    }

    /** The accumulation loop of `get_divert_statistics`. */
    static method TallyLoop(periods: seq<Period>, lo: int, hi: int, now: int) returns (t: Tally)
      ensures t == TallyPeriods(periods, lo, hi, now)
    {
      var divertTime := 0;
      var bypassTime := 0;
      var divertCount: nat := 0;
      var bypassCount: nat := 0;
      var i := 0;
      while i < |periods|
        invariant 0 <= i <= |periods|
        invariant TallyPeriods(periods[..i], lo, hi, now) == Tally(divertTime, bypassTime, divertCount, bypassCount)
      {
        assert periods[..i + 1][..i] == periods[..i];
        var p := periods[i];
        var periodStart := Max(p.start, lo);
        var periodEnd := Min(if p.end.Some? then p.end.value else now, hi);
        if periodEnd > periodStart {
          var duration := periodEnd - periodStart;
          if p.status == "Divert" {
            divertTime := divertTime + duration;
            divertCount := divertCount + 1;
          } else if p.status == "Bypass" {
            bypassTime := bypassTime + duration;
            bypassCount := bypassCount + 1;
          }
        }
        i := i + 1;
      }
      assert periods[..i] == periods;
      t := Tally(divertTime, bypassTime, divertCount, bypassCount);
    }

    /** `get_all_divert_periods`: every hydrophone with periods in the
        window, with those periods. */
    method GetAllDivertPeriods(startDate: Option<int>, endDate: Option<int>, now: int)
      returns (all: Assoc<string, seq<Period>>)
      ensures all == SelectAll(divertPeriods, startDate, endDate, now)
      ensures Valid() ==> (forall code :: Lookup(all, code) ==
                             var ps := SelectPeriods(PeriodsOf(divertPeriods, code), startDate, endDate, now);
                             if ps != [] then Some(ps) else None)
    {
      all := SelectEach(divertPeriods, startDate, endDate, now);
      if Valid() {
        CalculatePeriodsLookup(table, divertHistory, "");
        forall code ensures Lookup(all, code) ==
                  var ps := SelectPeriods(PeriodsOf(divertPeriods, code), startDate, endDate, now);
                  if ps != [] then Some(ps) else None
        {
          SelectAllLookup(divertPeriods, startDate, endDate, now, code);
        }
      }
    }

    /** The loop of `get_all_divert_periods`; looking a hydrophone's
        periods up by its (unique) code gives its own entry. */
    static method SelectEach(dp: Assoc<string, seq<Period>>, startDate: Option<int>, endDate: Option<int>, now: int)
      returns (all: Assoc<string, seq<Period>>)
      ensures all == SelectAll(dp, startDate, endDate, now)
    {
      all := [];
      var i := 0;
      while i < |dp|
        invariant 0 <= i <= |dp|
        invariant all == SelectAll(dp[..i], startDate, endDate, now)
      {
        assert dp[..i + 1][..i] == dp[..i];
        var ps := SelectLoop(dp[i].1, startDate, endDate, now);
        if ps != [] {
          all := all + [(dp[i].0, ps)];
        }
        i := i + 1;
      }
      assert dp[..i] == dp;
    }
  }
}
