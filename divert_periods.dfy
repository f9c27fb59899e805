/** Divert periods of one hydrophone (the current parser): status-change
    events folded into contiguous periods, the periods that overlap a time
    window, and the divert and bypass time inside a window. */
module DivertPeriods {
  import opened Text

  /** One email's status for one hydrophone. */
  datatype Event = Event(timestamp: int, status: string, system: Option<string>)

  /** A stretch of one status; `end` is `None` while it lasts. */
  datatype Period = Period(start: int, end: Option<int>, status: string, system: Option<string>)

  predicate SortedByTime(events: seq<Event>) {
    forall i, j :: 0 <= i < j < |events| ==> events[i].timestamp <= events[j].timestamp
  }

  // ---------------------------------------------------------------------
  // Building periods

  /** The periods closed so far and the period in progress. */
  datatype Fold = Fold(closed: seq<Period>, current: Option<Period>)

  function OpenPeriod(e: Event): Period {
    Period(e.timestamp, None, e.status, e.system)
  }

  function ClosePeriod(c: Period, t: int): Period {
    Period(c.start, Some(t), c.status, c.system)
  }

  /** One event: the first opens a period; a different status closes the
      current period at the event's time and opens a new one; the same
      status changes nothing. */
  function Step(f: Fold, e: Event): Fold {
    match f.current
    case None => Fold(f.closed, Some(OpenPeriod(e)))
    case Some(c) =>
      if c.status != e.status then Fold(f.closed + [ClosePeriod(c, e.timestamp)], Some(OpenPeriod(e)))
      else f
  }

  function FoldEvents(events: seq<Event>): Fold {
    if events == [] then Fold([], None)
    else Step(FoldEvents(events[..|events| - 1]), events[|events| - 1])
  }

  function Flush(f: Fold): seq<Period> {
    f.closed + (if f.current.Some? then [f.current.value] else [])
  }

  /** The periods of one hydrophone's events, taken in the given order. */
  function BuildPeriods(events: seq<Event>): seq<Period> {
    Flush(FoldEvents(events))
  }

  /** Number of adjacent event pairs whose statuses differ. */
  function Changes(events: seq<Event>): nat {
    if |events| < 2 then 0
    else
      var n := |events|;
      Changes(events[..n - 1]) + (if events[n - 2].status != events[n - 1].status then 1 else 0)
  }

  /** Each period ends where the next starts, adjacent periods differ in
      status, and only the last period is open. */
  predicate Contiguous(ps: seq<Period>) {
    (forall i :: 0 <= i < |ps| - 1 ==> ps[i].end == Some(ps[i + 1].start))
    && (forall i :: 0 <= i < |ps| - 1 ==> ps[i].status != ps[i + 1].status)
    && (ps != [] ==> ps[|ps| - 1].end.None?)
  }

  predicate StartsNonDecreasing(ps: seq<Period>) {
    forall i, j :: 0 <= i < j < |ps| ==> ps[i].start <= ps[j].start
  }

  /** The period in progress once a period has been opened. */
  lemma FlushStep(f: Fold, e: Event)
    requires f.current.Some?
    ensures Flush(Step(f, e)) ==
              if f.current.value.status != e.status
              then f.closed + [ClosePeriod(f.current.value, e.timestamp), OpenPeriod(e)]
              else f.closed + [f.current.value]
  {
  }

  lemma LastEvent(events: seq<Event>)
    requires events != []
    ensures FoldEvents(events) == Step(FoldEvents(events[..|events| - 1]), events[|events| - 1])
    ensures |events| >= 2 ==> events[..|events| - 1][0] == events[0]
                              && events[..|events| - 1][|events| - 2] == events[|events| - 2]
  {
  }

  /** The fold has a period in progress exactly when there were events; it
      is open and has the last event's status; the first period is the
      first event's; one period is closed per status change. */
  lemma {:induction false} FoldEventsCurrent(events: seq<Event>)
    ensures events == [] <==> FoldEvents(events).current.None?
    ensures events != [] ==> FoldEvents(events).current.value.end.None?
                             && FoldEvents(events).current.value.status == events[|events| - 1].status
    ensures events != [] ==> Flush(FoldEvents(events))[0].start == events[0].timestamp
                             && Flush(FoldEvents(events))[0].status == events[0].status
    ensures |FoldEvents(events).closed| == Changes(events)
  {
    if events != [] {
      var n := |events|;
      var init := events[..n - 1];
      FoldEventsCurrent(init);
      LastEvent(events);
      var f := FoldEvents(init);
      if init != [] {
        FlushStep(f, events[n - 1]);
        assert Flush(FoldEvents(events))[0].start == Flush(f)[0].start;
        assert Flush(FoldEvents(events))[0].status == Flush(f)[0].status;
      }
    }
  }

  /** Periods are contiguous after every event. */
  lemma {:induction false} FoldEventsContiguous(events: seq<Event>)
    ensures Contiguous(Flush(FoldEvents(events)))
  {
    if events != [] {
      var n := |events|;
      var init := events[..n - 1];
      FoldEventsContiguous(init);
      FoldEventsCurrent(init);
      LastEvent(events);
      var f := FoldEvents(init);
      if init != [] {
        FlushStep(f, events[n - 1]);
        var c := f.current.value;
        if c.status != events[n - 1].status {
          var ps := f.closed + [c];
          var qs := f.closed + [ClosePeriod(c, events[n - 1].timestamp), OpenPeriod(events[n - 1])];
          assert forall i :: 0 <= i < |ps| - 1 ==> qs[i] == ps[i];
          assert forall i :: 0 <= i < |ps| ==> qs[i].start == ps[i].start && qs[i].status == ps[i].status;
        }
      }
    }
  }

  /** The period invariants of `_calculate_divert_periods`: a hydrophone
      with events gets at least one period; periods are contiguous, differ
      from their neighbours and only the last is open; there is one more
      period than there are status changes; the first period starts with
      the first event and the last carries the last event's status. */
  lemma BuildPeriodsShape(events: seq<Event>)
    ensures events == [] <==> BuildPeriods(events) == []
    ensures Contiguous(BuildPeriods(events))
    ensures events != [] ==> |BuildPeriods(events)| == 1 + Changes(events)
    ensures events != [] ==> BuildPeriods(events)[0].start == events[0].timestamp
                             && BuildPeriods(events)[0].status == events[0].status
    ensures events != [] ==>
              BuildPeriods(events)[|BuildPeriods(events)| - 1].status == events[|events| - 1].status
  {
    FoldEventsCurrent(events);
    FoldEventsContiguous(events);
  }

  predicate StartsNoLaterThan(ps: seq<Period>, t: int) {
    forall i :: 0 <= i < |ps| ==> ps[i].start <= t
  }

  lemma SortedPrefix(events: seq<Event>)
    requires |events| >= 2 && SortedByTime(events)
    ensures SortedByTime(events[..|events| - 1])
    ensures events[|events| - 2].timestamp <= events[|events| - 1].timestamp
  {
  }

  /** Sorted events: period starts never decrease and none is later than
      the last event. */
  lemma {:induction false} FoldEventsSorted(events: seq<Event>)
    requires events != [] && SortedByTime(events)
    ensures StartsNonDecreasing(Flush(FoldEvents(events)))
    ensures StartsNoLaterThan(Flush(FoldEvents(events)), events[|events| - 1].timestamp)
  {
    var n := |events|;
    LastEvent(events);
    if n >= 2 {
      var init := events[..n - 1];
      SortedPrefix(events);
      FoldEventsSorted(init);
      FoldEventsCurrent(init);
      var f := FoldEvents(init);
      var e := events[n - 1];
      FlushStep(f, e);
      var ps := Flush(f);
      var qs := Flush(FoldEvents(events));
      var t := events[n - 2].timestamp;
      assert StartsNonDecreasing(ps) && StartsNoLaterThan(ps, t);
      if f.current.value.status != e.status {
        assert qs == f.closed + [ClosePeriod(f.current.value, e.timestamp), OpenPeriod(e)];
        assert |qs| == |ps| + 1;
        forall i | 0 <= i < |ps| ensures qs[i].start == ps[i].start && qs[i].start <= e.timestamp {
        }
        forall i, j | 0 <= i < j < |qs| ensures qs[i].start <= qs[j].start {
          if j < |ps| {
            assert ps[i].start <= ps[j].start;
          }
        }
      } else {
        assert qs == ps;
      }
    }
  }

  /** Periods in time order: each one but the last is closed, does not end
      before it starts, and ends no later than any later period starts. */
  predicate Ordered(ps: seq<Period>) {
    forall i, j :: 0 <= i < j < |ps| ==>
      ps[i].end.Some? && ps[i].start <= ps[i].end.value <= ps[j].start
  }

  /** Events in time order give periods in time order. */
  lemma SortedEventsOrderedPeriods(events: seq<Event>)
    requires SortedByTime(events)
    ensures Ordered(BuildPeriods(events))
  {
    if events != [] {
      FoldEventsContiguous(events);
      FoldEventsSorted(events);
      var ps := BuildPeriods(events);
      forall i, j | 0 <= i < j < |ps|
        ensures ps[i].end.Some? && ps[i].start <= ps[i].end.value <= ps[j].start
      {
        assert ps[i].end == Some(ps[i + 1].start);
      }
    }
  }

  /** Bypass at t0, Divert at t1, Divert again at t2 and Bypass at t3 give
      three periods: the repeated Divert opens none. */
  lemma BuildPeriodsExample(t0: int, t1: int, t2: int, t3: int)
    ensures BuildPeriods([Event(t0, "Bypass", None), Event(t1, "Divert", None),
                          Event(t2, "Divert", None), Event(t3, "Bypass", None)])
            == [Period(t0, Some(t1), "Bypass", None), Period(t1, Some(t3), "Divert", None),
                Period(t3, None, "Bypass", None)]
  {
    var es := [Event(t0, "Bypass", None), Event(t1, "Divert", None),
               Event(t2, "Divert", None), Event(t3, "Bypass", None)];
    assert "Bypass" != "Divert" by { assert "Bypass"[0] != "Divert"[0]; }
    var p0 := Period(t0, None, "Bypass", None);
    var p1 := Period(t1, None, "Divert", None);
    assert es[..0] == [];
    assert es[..1][..0] == [];
    assert FoldEvents(es[..1]) == Fold([], Some(p0));
    assert es[..2][..1] == es[..1];
    assert FoldEvents(es[..2]) == Fold([ClosePeriod(p0, t1)], Some(p1));
    assert es[..3][..2] == es[..2];
    assert FoldEvents(es[..3]) == Fold([ClosePeriod(p0, t1)], Some(p1));
    assert es[..4][..3] == es[..3];
    assert es[..4] == es;
  }

  // ---------------------------------------------------------------------
  // Periods in a window

  function EndOrNow(p: Period, now: int): int {
    if p.end.Some? then p.end.value else now
  }

  /** A period overlaps the window: it does not end before `startDate`
      (an open period ends now) and does not start after `endDate`. */
  predicate Overlaps(p: Period, startDate: Option<int>, endDate: Option<int>, now: int) {
    (startDate.None? || EndOrNow(p, now) >= startDate.value)
    && (endDate.None? || p.start <= endDate.value)
  }

  function FilterPeriods(ps: seq<Period>, startDate: Option<int>, endDate: Option<int>, now: int): (r: seq<Period>)
    ensures |r| <= |ps|
  {
    if ps == [] then []
    else
      var last := ps[|ps| - 1];
      FilterPeriods(ps[..|ps| - 1], startDate, endDate, now)
      + (if Overlaps(last, startDate, endDate, now) then [last] else [])
  }

  /** `get_divert_periods` on one list: every period without bounds,
      otherwise the overlapping ones in order. */
  function SelectPeriods(ps: seq<Period>, startDate: Option<int>, endDate: Option<int>, now: int): seq<Period> {
    if startDate.Some? || endDate.Some? then FilterPeriods(ps, startDate, endDate, now) else ps
  }

  /** The filter keeps exactly the overlapping periods, in their order. */
  lemma {:induction false} FilterPeriodsMembers(ps: seq<Period>, startDate: Option<int>, endDate: Option<int>, now: int)
    ensures forall p :: p in FilterPeriods(ps, startDate, endDate, now) <==>
                          p in ps && Overlaps(p, startDate, endDate, now)
  {
    if ps != [] {
      var init := ps[..|ps| - 1];
      FilterPeriodsMembers(init, startDate, endDate, now);
      assert ps == init + [ps[|ps| - 1]];
    }
  }

  lemma OrderedAppend(ps: seq<Period>, p: Period)
    requires Ordered(ps)
    requires forall q :: q in ps ==> q.end.Some? && q.start <= q.end.value <= p.start
    ensures Ordered(ps + [p])
  {
    var qs := ps + [p];
    forall i, j | 0 <= i < j < |qs| ensures qs[i].end.Some? && qs[i].start <= qs[i].end.value <= qs[j].start {
      assert qs[i] == ps[i] && qs[i] in ps;
      if j < |ps| {
        assert qs[j] == ps[j];
      }
    }
  }

  /** Dropping periods keeps the rest in time order. */
  lemma {:induction false} FilterPeriodsOrdered(ps: seq<Period>, startDate: Option<int>, endDate: Option<int>, now: int)
    requires Ordered(ps)
    ensures Ordered(FilterPeriods(ps, startDate, endDate, now))
  {
    if ps != [] {
      var n := |ps| - 1;
      var init := ps[..n];
      assert Ordered(init) by {
        forall i, j | 0 <= i < j < |init| ensures init[i].end.Some? && init[i].start <= init[i].end.value <= init[j].start {
          assert init[i] == ps[i] && init[j] == ps[j];
        }
      }
      FilterPeriodsOrdered(init, startDate, endDate, now);
      FilterPeriodsMembers(init, startDate, endDate, now);
      var r := FilterPeriods(init, startDate, endDate, now);
      if !Overlaps(ps[n], startDate, endDate, now) {
        assert FilterPeriods(ps, startDate, endDate, now) == r;
      } else {
        assert FilterPeriods(ps, startDate, endDate, now) == r + [ps[n]];
        forall q | q in r ensures q.end.Some? && q.start <= q.end.value <= ps[n].start {
          var k :| 0 <= k < |init| && init[k] == q;
          assert ps[k] == q;
        }
        OrderedAppend(r, ps[n]);
      }
    }
  }

  // ---------------------------------------------------------------------
  // Divert and bypass time in a window

  function Max(a: int, b: int): int { if a >= b then a else b }
  function Min(a: int, b: int): int { if a <= b then a else b }

  /** Length of the part of `p` inside `[lo, hi]` (an open period ends now). */
  function ClippedLength(p: Period, lo: int, hi: int, now: int): (d: int)
    ensures d >= 0
    ensures d <= Max(0, hi - lo)
  {
    var s := Max(p.start, lo);
    var e := Min(EndOrNow(p, now), hi);
    if e <= s then 0 else e - s
  }

  datatype Tally = Tally(divertTime: int, bypassTime: int, divertCount: nat, bypassCount: nat)

  /** The accumulation loop: clipped lengths of `Divert` and `Bypass`
      periods summed and counted; any other status is in neither. */
  function TallyPeriods(ps: seq<Period>, lo: int, hi: int, now: int): (t: Tally)
    ensures t.divertTime >= 0 && t.bypassTime >= 0
    ensures t.divertCount + t.bypassCount <= |ps|
  {
    if ps == [] then Tally(0, 0, 0, 0)
    else
      var t := TallyPeriods(ps[..|ps| - 1], lo, hi, now);
      var p := ps[|ps| - 1];
      var d := ClippedLength(p, lo, hi, now);
      if d <= 0 then t
      else if p.status == "Divert" then t.(divertTime := t.divertTime + d, divertCount := t.divertCount + 1)
      else if p.status == "Bypass" then t.(bypassTime := t.bypassTime + d, bypassCount := t.bypassCount + 1)
      else t
  }

  /** Sum of every period's clipped length. */
  function ClippedTotal(ps: seq<Period>, lo: int, hi: int, now: int): (d: int)
    ensures d >= 0
  {
    if ps == [] then 0
    else ClippedTotal(ps[..|ps| - 1], lo, hi, now) + ClippedLength(ps[|ps| - 1], lo, hi, now)
  }

  lemma {:induction false} TallyWithinTotal(ps: seq<Period>, lo: int, hi: int, now: int)
    ensures TallyPeriods(ps, lo, hi, now).divertTime + TallyPeriods(ps, lo, hi, now).bypassTime
            <= ClippedTotal(ps, lo, hi, now)
  {
    if ps != [] {
      TallyWithinTotal(ps[..|ps| - 1], lo, hi, now);
    }
  }

  lemma {:induction false} ClippedTotalBounded(ps: seq<Period>, lo: int, hi: int, now: int, upper: int)
    requires Ordered(ps)
    requires forall i :: 0 <= i < |ps| ==> EndOrNow(ps[i], now) <= upper
    ensures ClippedTotal(ps, lo, hi, now) <= Max(0, Min(hi, upper) - lo)
  {
    if ps != [] {
      var n := |ps| - 1;
      var init := ps[..n];
      var p := ps[n];
      var u := Min(p.start, upper);
      assert Ordered(init) by {
        forall i, j | 0 <= i < j < |init| ensures init[i].end.Some? && init[i].start <= init[i].end.value <= init[j].start {
          assert init[i] == ps[i] && init[j] == ps[j];
        }
      }
      forall i | 0 <= i < |init| ensures EndOrNow(init[i], now) <= u {
        assert init[i] == ps[i];
      }
      ClippedTotalBounded(init, lo, hi, now, u);
    }
  }

  function LatestEnd(ps: seq<Period>, now: int): (u: int)
    requires ps != []
    ensures forall i :: 0 <= i < |ps| ==> EndOrNow(ps[i], now) <= u
  {
    if |ps| == 1 then EndOrNow(ps[0], now)
    else
      var u := LatestEnd(ps[..|ps| - 1], now);
      assert forall i :: 0 <= i < |ps| - 1 ==> ps[..|ps| - 1][i] == ps[i];
      Max(u, EndOrNow(ps[|ps| - 1], now))
  }

  /** Periods in time order do not overlap, so their divert and bypass time
      inside a window together never exceed the window's length. */
  lemma TallyWithinWindow(ps: seq<Period>, lo: int, hi: int, now: int)
    requires Ordered(ps)
    ensures TallyPeriods(ps, lo, hi, now).divertTime + TallyPeriods(ps, lo, hi, now).bypassTime
            <= Max(0, hi - lo)
  {
    TallyWithinTotal(ps, lo, hi, now);
    if ps != [] {
      ClippedTotalBounded(ps, lo, hi, now, LatestEnd(ps, now));
    }
  }

  /** `part / total * 100`, or 0 when the window is empty. */
  function Percentage(part: int, total: int): (r: real)
    requires part >= 0
    ensures r >= 0.0
    ensures total <= 0 ==> r == 0.0
    ensures 0 < total && part <= total ==> r <= 100.0
  {
    if total > 0 then part as real / total as real * 100.0 else 0.0
  }

  lemma PercentageSum(a: int, b: int, total: int)
    requires a >= 0 && b >= 0 && a + b <= Max(0, total)
    ensures Percentage(a, total) + Percentage(b, total) <= 100.0
  {
    if total > 0 {
      var t := total as real;
      assert a as real / t + b as real / t == (a + b) as real / t;
      assert (a + b) as real / t <= 1.0;
    }
  }

  datatype Statistics = Statistics(
    locationCode: string,
    analysisStart: int,
    analysisEnd: int,
    totalAnalysisTime: int,
    totalDivertTime: int,
    totalBypassTime: int,
    divertPercentage: real,
    bypassPercentage: real,
    divertPeriodsCount: nat,
    bypassPeriodsCount: nat,
    totalPeriods: nat)

  function EarliestStart(ps: seq<Period>): (s: int)
    requires ps != []
    ensures forall i :: 0 <= i < |ps| ==> s <= ps[i].start
    ensures exists i :: 0 <= i < |ps| && s == ps[i].start
  {
    if |ps| == 1 then ps[0].start
    else
      var s := EarliestStart(ps[..|ps| - 1]);
      assert forall i :: 0 <= i < |ps| - 1 ==> ps[..|ps| - 1][i] == ps[i];
      Min(s, ps[|ps| - 1].start)
  }

  /** The window: `startDate`, else the earliest period start, else now;
      `endDate`, else now. */
  function AnalysisStart(ps: seq<Period>, startDate: Option<int>, now: int): int {
    if startDate.Some? then startDate.value else if ps != [] then EarliestStart(ps) else now
  }

  function AnalysisEnd(endDate: Option<int>, now: int): int {
    if endDate.Some? then endDate.value else now
  }

  /** `get_divert_statistics` over the already selected periods `ps`. */
  function StatisticsOf(code: string, ps: seq<Period>, startDate: Option<int>, endDate: Option<int>, now: int): (s: Statistics)
    ensures s.totalAnalysisTime == s.analysisEnd - s.analysisStart
    ensures s.divertPeriodsCount + s.bypassPeriodsCount <= s.totalPeriods == |ps|
    ensures 0.0 <= s.divertPercentage && 0.0 <= s.bypassPercentage
  {
    var lo := AnalysisStart(ps, startDate, now);
    var hi := AnalysisEnd(endDate, now);
    var t := TallyPeriods(ps, lo, hi, now);
    Statistics(code, lo, hi, hi - lo, t.divertTime, t.bypassTime,
               Percentage(t.divertTime, hi - lo), Percentage(t.bypassTime, hi - lo),
               t.divertCount, t.bypassCount, |ps|)
  }

  /** For periods in time order, divert and bypass time together fit in the
      analysis window, and the two percentages add up to at most 100. */
  lemma StatisticsWithinWindow(code: string, ps: seq<Period>, startDate: Option<int>, endDate: Option<int>, now: int)
    requires Ordered(ps)
    ensures var s := StatisticsOf(code, ps, startDate, endDate, now);
            s.totalDivertTime + s.totalBypassTime <= Max(0, s.totalAnalysisTime)
            && s.divertPercentage + s.bypassPercentage <= 100.0
  {
    var lo := AnalysisStart(ps, startDate, now);
    var hi := AnalysisEnd(endDate, now);
    var t := TallyPeriods(ps, lo, hi, now);
    TallyWithinWindow(ps, lo, hi, now);
    PercentageSum(t.divertTime, t.bypassTime, hi - lo);
  }
}
