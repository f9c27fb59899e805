/** The legacy parser object: divert notifications become dated events with
    their hydrophones' statuses; the current status is the events replayed
    oldest to newest; each hydrophone's periods are tracked with a per-code
    state and carry their full (unclipped) durations, which the statistics
    add up. Fetching mail and the clock are outside the model: a refresh
    receives the fetched messages and the time it runs at. */
module LegacyParser {
  import opened Text
  import opened Dict
  import LocationMappings
  import DivertEmail
  import opened DivertPeriods
  import DivertStatus
  import LegacyEmail

  type Table = DivertEmail.Table
  type Message = DivertEmail.Message
  type StatusInfo = DivertStatus.StatusInfo

  // ---------------------------------------------------------------------
  // Events

  /** One kept notification: its time, system, the status of each
      hydrophone it names, and its subject. */
  datatype LegacyEvent = LegacyEvent(timestamp: int, system: Option<string>,
                                     locations: Assoc<string, string>, subject: string)

  predicate IsDivertSubject(subject: string) {
    Contains(subject, "[Divert]") || Contains(subject, "Mode Change")
  }

  /** A message becomes an event when its subject looks like a divert
      notification and its legacy parse has a time and at least one named
      location (mapped or not). */
  function EventOf(table: Table, m: Message): Option<LegacyEvent> {
    if !IsDivertSubject(m.subject) then None
    else
      var parsed := LegacyEmail.ParseEmail(m.subject, m.body);
      if parsed.timestamp.Some? && parsed.locations != [] then
        Some(LegacyEvent(parsed.timestamp.value, parsed.system,
                         DivertEmail.HydrophoneStatus(table, parsed.locations), m.subject))
      else None
  }

  /** The message loop of `update_divert_status`, in message order. */
  function CollectEvents(table: Table, ms: seq<Message>): seq<LegacyEvent> {
    FilterMap(ms, (m: Message) => EventOf(table, m))
  }

  /** Every hydrophone appears at most once in an event. */
  predicate WellFormed(h: seq<LegacyEvent>) {
    forall i :: 0 <= i < |h| ==> KeysUnique(h[i].locations)
  }

  /** The events are exactly the messages that pass the filter, each with
      its own legacy parse, and none names a hydrophone twice. */
  lemma CollectEventsMembers(table: Table, ms: seq<Message>)
    ensures |CollectEvents(table, ms)| <= |ms|
    ensures WellFormed(CollectEvents(table, ms))
    ensures forall e :: e in CollectEvents(table, ms) <==>
                          exists i :: 0 <= i < |ms| && EventOf(table, ms[i]) == Some(e)
  {
    var f := (m: Message) => EventOf(table, m);
    forall e ensures e in CollectEvents(table, ms) <==> exists i :: 0 <= i < |ms| && EventOf(table, ms[i]) == Some(e) {
      FilterMapMembers(ms, f, e);
    }
    var h := CollectEvents(table, ms);
    forall i | 0 <= i < |h| ensures KeysUnique(h[i].locations) {
      FilterMapMembers(ms, f, h[i]);
      var k :| 0 <= k < |ms| && f(ms[k]) == Some(h[i]);
    }
  }

  function Recency(e: LegacyEvent): int {
    -e.timestamp
  }

  predicate NewestFirstSorted(h: seq<LegacyEvent>) {
    forall i, j :: 0 <= i < j < |h| ==> h[i].timestamp >= h[j].timestamp
  }

  /** `sort(key=timestamp, reverse=True)`: newest first, a permutation of
      the events, equal times kept in message order. */
  function NewestFirst(h: seq<LegacyEvent>): (r: seq<LegacyEvent>)
    ensures NewestFirstSorted(r)
    ensures multiset(r) == multiset(h)
    ensures forall t :: WithKey(r, Recency, t) == WithKey(h, Recency, t)
  {
    var r := SortBy(h, Recency);
    assert forall i, j :: 0 <= i < j < |r| ==> Recency(r[i]) <= Recency(r[j]);
    assert forall t :: WithKey(r, Recency, t) == WithKey(h, Recency, t) by {
      forall t ensures WithKey(r, Recency, t) == WithKey(h, Recency, t) {
        SortByStable(h, Recency, t);
      }
    }
    r
  }

  lemma NewestFirstWellFormed(h: seq<LegacyEvent>)
    requires WellFormed(h)
    ensures WellFormed(NewestFirst(h))
  {
    var r := NewestFirst(h);
    forall i | 0 <= i < |r| ensures KeysUnique(r[i].locations) {
      assert r[i] in multiset(h);
    }
  }

  // ---------------------------------------------------------------------
  // Current status

  /** The status records one event writes, in the order of its hydrophones. */
  function Infos(locations: Assoc<string, string>, ts: int, system: Option<string>): (r: Assoc<string, StatusInfo>)
    ensures |r| == |locations|
  {
    if locations == [] then []
    else
      var n := |locations| - 1;
      Infos(locations[..n], ts, system) + [(locations[n].0, DivertStatus.StatusInfo(locations[n].1, Some(ts), system))]
  }

  lemma {:induction false} InfosLast(locations: Assoc<string, string>, ts: int, system: Option<string>, code: string)
    ensures LastValue(Infos(locations, ts, system), code) ==
              if LastValue(locations, code).Some?
              then Some(DivertStatus.StatusInfo(LastValue(locations, code).value, Some(ts), system)) else None
  {
    if locations != [] {
      var n := |locations| - 1;
      InfosLast(locations[..n], ts, system, code);
      assert Infos(locations, ts, system)[..n] == Infos(locations[..n], ts, system);
    }
  }

  /** Replaying a newest-first history oldest to newest: each event writes
      every hydrophone it names, so later events overwrite earlier ones. */
  function Replay(h: seq<LegacyEvent>): (r: Assoc<string, StatusInfo>)
    ensures KeysUnique(r)
  {
    if h == [] then []
    else PutAll(Replay(h[1..]), Infos(h[0].locations, h[0].timestamp, h[0].system))
  }

  /** The status record of the first (newest) event naming `code`. */
  function NewestInfo(h: seq<LegacyEvent>, code: string): (r: Option<StatusInfo>)
    ensures r.None? <==> forall i :: 0 <= i < |h| ==> !HasKey(h[i].locations, code)
  {
    if h == [] then None
    else if HasKey(h[0].locations, code)
    then Some(DivertStatus.StatusInfo(Lookup(h[0].locations, code).value, Some(h[0].timestamp), h[0].system))
    else
      var r := NewestInfo(h[1..], code);
      assert forall i :: 1 <= i < |h| ==> h[1..][i - 1] == h[i];
      r
  }

  /** The replay leaves each hydrophone with the record of the first event
      of the history that names it. */
  lemma {:induction false} ReplayLookup(h: seq<LegacyEvent>, code: string)
    requires WellFormed(h)
    ensures Lookup(Replay(h), code) == NewestInfo(h, code)
  {
    if h != [] {
      assert WellFormed(h[1..]) by {
        forall i | 0 <= i < |h[1..]| ensures KeysUnique(h[1..][i].locations) {
          assert h[1..][i] == h[i + 1];
        }
      }
      ReplayLookup(h[1..], code);
      PutAllLookup(Replay(h[1..]), Infos(h[0].locations, h[0].timestamp, h[0].system), code);
      InfosLast(h[0].locations, h[0].timestamp, h[0].system, code);
      UniqueLastValue(h[0].locations, code);
    }
  }

  /** For a newest-first history, a hydrophone's current record comes from
      an event naming it that no other such event is newer than; it has
      none exactly when no event names it. */
  lemma NewestStatusWins(h: seq<LegacyEvent>, code: string)
    requires WellFormed(h) && NewestFirstSorted(h)
    ensures Lookup(Replay(h), code).None? <==> forall i :: 0 <= i < |h| ==> !HasKey(h[i].locations, code)
    ensures Lookup(Replay(h), code).Some? ==>
              exists i :: 0 <= i < |h| && HasKey(h[i].locations, code)
                          && Lookup(Replay(h), code).value ==
                               DivertStatus.StatusInfo(Lookup(h[i].locations, code).value, Some(h[i].timestamp), h[i].system)
                          && forall j :: 0 <= j < |h| && HasKey(h[j].locations, code) ==> h[j].timestamp <= h[i].timestamp
  {
    ReplayLookup(h, code);
    NewestInfoFirst(h, code);
  }

  lemma {:induction false} NewestInfoFirst(h: seq<LegacyEvent>, code: string)
    ensures NewestInfo(h, code).Some? ==>
              exists i :: 0 <= i < |h| && HasKey(h[i].locations, code)
                          && NewestInfo(h, code).value ==
                               DivertStatus.StatusInfo(Lookup(h[i].locations, code).value, Some(h[i].timestamp), h[i].system)
                          && forall j :: 0 <= j < i ==> !HasKey(h[j].locations, code)
  {
    if h != [] && !HasKey(h[0].locations, code) {
      NewestInfoFirst(h[1..], code);
      if NewestInfo(h, code).Some? {
        var i :| 0 <= i < |h[1..]| && HasKey(h[1..][i].locations, code)
                 && NewestInfo(h[1..], code).value ==
                      DivertStatus.StatusInfo(Lookup(h[1..][i].locations, code).value, Some(h[1..][i].timestamp), h[1..][i].system)
                 && forall j :: 0 <= j < i ==> !HasKey(h[1..][j].locations, code);
        assert h[1..][i] == h[i + 1];
        forall j | 0 <= j < i + 1 ensures !HasKey(h[j].locations, code) {
          if j > 0 { assert h[1..][j - 1] == h[j]; }
        }
      }
    }
  }

  /** Writing the records of one more location of an event. */
  lemma WriteInfoStep(cur: Assoc<string, StatusInfo>, locations: Assoc<string, string>, j: nat, ts: int, system: Option<string>)
    requires KeysUnique(cur) && j < |locations|
    ensures PutAll(cur, Infos(locations[..j + 1], ts, system)) ==
              Put(PutAll(cur, Infos(locations[..j], ts, system)), locations[j].0,
                  DivertStatus.StatusInfo(locations[j].1, Some(ts), system))
  {
    assert locations[..j + 1][..j] == locations[..j];
    var ps := Infos(locations[..j + 1], ts, system);
    assert ps[..j] == Infos(locations[..j], ts, system);
  }

  /** One event's records written one by one. */
  method WriteInfos(cur: Assoc<string, StatusInfo>, locations: Assoc<string, string>, ts: int, system: Option<string>)
    returns (r: Assoc<string, StatusInfo>)
    requires KeysUnique(cur)
    ensures r == PutAll(cur, Infos(locations, ts, system))
  {
    r := cur;
    var j := 0;
    while j < |locations|
      invariant 0 <= j <= |locations|
      invariant r == PutAll(cur, Infos(locations[..j], ts, system))
    {
      WriteInfoStep(cur, locations, j, ts, system);
      r := Put(r, locations[j].0, DivertStatus.StatusInfo(locations[j].1, Some(ts), system));
      j := j + 1;
    }
    assert locations[..j] == locations;
  }

  /** The replay loop of `update_divert_status`: `reversed(history)`. */
  method CurrentStatus(h: seq<LegacyEvent>) returns (cur: Assoc<string, StatusInfo>)
    ensures cur == Replay(h)
  {
    cur := [];
    var i := |h|;
    while i > 0
      invariant 0 <= i <= |h|
      invariant cur == Replay(h[i..])
    {
      i := i - 1;
      assert h[i..][1..] == h[i + 1..];
      cur := WriteInfos(cur, h[i].locations, h[i].timestamp, h[i].system);
    }
  }

  // ---------------------------------------------------------------------
  // Periods

  /** A period with the duration recorded when it was built. */
  datatype TimedPeriod = TimedPeriod(period: Period, duration: int)

  /** The duration of a period: up to its end, or up to `now` while open. */
  function Timed(p: Period, now: int): TimedPeriod {
    TimedPeriod(p, EndOrNow(p, now) - p.start)
  }

  function TimedAll(ps: seq<Period>, now: int): (r: seq<TimedPeriod>)
    ensures |r| == |ps|
  {
    if ps == [] then []
    else TimedAll(ps[..|ps| - 1], now) + [Timed(ps[|ps| - 1], now)]
  }

  function Untimed(tps: seq<TimedPeriod>): (r: seq<Period>)
    ensures |r| == |tps|
  {
    if tps == [] then []
    else Untimed(tps[..|tps| - 1]) + [tps[|tps| - 1].period]
  }

  /** Per hydrophone: the state in progress (an open period) and the
      periods recorded so far. */
  datatype Tracker = Tracker(states: Assoc<string, Period>, periods: Assoc<string, seq<TimedPeriod>>)

  predicate TrackerUnique(t: Tracker) {
    KeysUnique(t.states) && KeysUnique(t.periods)
  }

  function TimedOf(periods: Assoc<string, seq<TimedPeriod>>, code: string): seq<TimedPeriod> {
    match Lookup(periods, code)
    case None => []
    case Some(tps) => tps
  }

  /** One `(code, status)` of an event: the first sighting starts the
      state (and an empty period list if there is none); a different status
      records the state as a period ending now and starts a new state; the
      same status changes nothing. */
  function TrackWrite(t: Tracker, code: string, status: string, ts: int, system: Option<string>): (r: Tracker)
    requires TrackerUnique(t)
    ensures TrackerUnique(r)
  {
    match Lookup(t.states, code)
    case None =>
      Tracker(Put(t.states, code, Period(ts, None, status, system)),
              if Lookup(t.periods, code).Some? then t.periods else Put(t.periods, code, []))
    case Some(c) =>
      if c.status != status then
        Tracker(Put(t.states, code, Period(ts, None, status, system)),
                Put(t.periods, code, TimedOf(t.periods, code) + [TimedPeriod(ClosePeriod(c, ts), ts - c.start)]))
      else t
  }

  function TrackPairs(t: Tracker, pairs: Assoc<string, string>, ts: int, system: Option<string>): (r: Tracker)
    requires TrackerUnique(t)
    ensures TrackerUnique(r)
  {
    if pairs == [] then t
    else
      var n := |pairs| - 1;
      TrackWrite(TrackPairs(t, pairs[..n], ts, system), pairs[n].0, pairs[n].1, ts, system)
  }

  /** The event loop of `_calculate_divert_periods`, over the events in the
      order given. */
  function TrackEvents(evs: seq<LegacyEvent>): (r: Tracker)
    ensures TrackerUnique(r)
  {
    if evs == [] then Tracker([], [])
    else
      var e := evs[|evs| - 1];
      TrackPairs(TrackEvents(evs[..|evs| - 1]), e.locations, e.timestamp, e.system)
  }

  /** The closing loop: every tracked hydrophone with a period list gets its
      state appended as an open period lasting until `now`. */
  function CloseOut(states: Assoc<string, Period>, periods: Assoc<string, seq<TimedPeriod>>, now: int)
    : (r: Assoc<string, seq<TimedPeriod>>)
    requires KeysUnique(periods)
    ensures KeysUnique(r)
  {
    if states == [] then periods
    else
      var n := |states| - 1;
      CloseOne(CloseOut(states[..n], periods, now), states[n].0, states[n].1, now)
  }

  /** One hydrophone's state appended, as a period lasting until `now`, to
      its list when it has one. */
  function CloseOne(periods: Assoc<string, seq<TimedPeriod>>, code: string, st: Period, now: int)
    : (r: Assoc<string, seq<TimedPeriod>>)
    requires KeysUnique(periods)
    ensures KeysUnique(r)
  {
    match Lookup(periods, code)
    case Some(tps) => Put(periods, code, tps + [TimedPeriod(st, now - st.start)])
    case None => periods
  }

  function EventTime(e: LegacyEvent): int {
    e.timestamp
  }

  /** `_calculate_divert_periods`: the history sorted oldest first (stably),
      tracked, and closed at `now`. */
  function LegacyPeriods(h: seq<LegacyEvent>, now: int): Assoc<string, seq<TimedPeriod>> {
    var t := TrackEvents(SortBy(h, EventTime));
    CloseOut(t.states, t.periods, now)
  }

  /** The reference: one hydrophone's events, in the order given. */
  function CodeEvents(evs: seq<LegacyEvent>, code: string): seq<Event> {
    if evs == [] then []
    else
      var e := evs[|evs| - 1];
      CodeEvents(evs[..|evs| - 1], code)
      + (if HasKey(e.locations, code) then [Event(e.timestamp, Lookup(e.locations, code).value, e.system)] else [])
  }

  /** What the tracker holds for one hydrophone matches a fold of its own
      events: the state is the period in progress, the recorded periods are
      the closed ones with their durations, and a list exists exactly when
      a state does. */
  ghost predicate Tracks(t: Tracker, code: string, f: Fold, now: int) {
    Lookup(t.states, code) == f.current
    && Lookup(t.periods, code) == (if f.current.Some? then Some(TimedAll(f.closed, now)) else None)
    && (f.current.None? ==> f.closed == [])
  }

  lemma TimedAllAppend(ps: seq<Period>, p: Period, now: int)
    ensures TimedAll(ps + [p], now) == TimedAll(ps, now) + [Timed(p, now)]
  {
    assert (ps + [p])[..|ps|] == ps;
  }

  /** A write for one hydrophone leaves every other hydrophone alone. */
  lemma TrackWriteOther(t: Tracker, code: string, status: string, ts: int, system: Option<string>, other: string)
    requires TrackerUnique(t) && other != code
    ensures Lookup(TrackWrite(t, code, status, ts, system).states, other) == Lookup(t.states, other)
    ensures Lookup(TrackWrite(t, code, status, ts, system).periods, other) == Lookup(t.periods, other)
  {
  }

  /** A write for a hydrophone without a state opens its first period. */
  lemma TrackWriteFirst(t: Tracker, code: string, status: string, ts: int, system: Option<string>, f: Fold, now: int)
    requires TrackerUnique(t) && Tracks(t, code, f, now) && f.current.None?
    ensures Tracks(TrackWrite(t, code, status, ts, system), code, Step(f, Event(ts, status, system)), now)
  {
    var r := TrackWrite(t, code, status, ts, system);
    assert Lookup(r.periods, code) == Some([]);
  }

  /** A write with a new status records the state as a closed period. */
  lemma TrackWriteChange(t: Tracker, code: string, status: string, ts: int, system: Option<string>, f: Fold, now: int)
    requires TrackerUnique(t) && Tracks(t, code, f, now) && f.current.Some? && f.current.value.status != status
    ensures Tracks(TrackWrite(t, code, status, ts, system), code, Step(f, Event(ts, status, system)), now)
  {
    var c := f.current.value;
    var closed := ClosePeriod(c, ts);
    TrackWriteCloses(t, code, status, ts, system);
    TimedAllAppend(f.closed, closed, now);
    assert Timed(closed, now) == TimedPeriod(closed, ts - c.start);
    assert TimedOf(t.periods, code) == TimedAll(f.closed, now);
  }

  /** The written hydrophone's state after a change of status. */
  lemma TrackWriteCloses(t: Tracker, code: string, status: string, ts: int, system: Option<string>)
    requires TrackerUnique(t) && Lookup(t.states, code).Some? && Lookup(t.states, code).value.status != status
    ensures var c := Lookup(t.states, code).value;
            var r := TrackWrite(t, code, status, ts, system);
            Lookup(r.states, code) == Some(Period(ts, None, status, system))
            && Lookup(r.periods, code) == Some(TimedOf(t.periods, code) + [TimedPeriod(ClosePeriod(c, ts), ts - c.start)])
  {
  }

  /** One write moves the written hydrophone one fold step on and leaves
      every other hydrophone as it was. */
  lemma TrackWriteStep(t: Tracker, code: string, status: string, ts: int, system: Option<string>,
                       other: string, f: Fold, now: int)
    requires TrackerUnique(t) && Tracks(t, other, f, now)
    ensures Tracks(TrackWrite(t, code, status, ts, system), other,
                   if other == code then Step(f, Event(ts, status, system)) else f, now)
  {
    if other != code {
      TrackWriteOther(t, code, status, ts, system, other);
    } else if f.current.None? {
      TrackWriteFirst(t, code, status, ts, system, f, now);
    } else if f.current.value.status != status {
      TrackWriteChange(t, code, status, ts, system, f, now);
    }
  }

  /** One event's pairs move each named hydrophone one step on, with the
      status the event gives it. */
  lemma {:induction false} TrackPairsStep(t: Tracker, pairs: Assoc<string, string>, ts: int, system: Option<string>,
                                          code: string, f: Fold, now: int)
    requires TrackerUnique(t) && KeysUnique(pairs) && Tracks(t, code, f, now)
    ensures Tracks(TrackPairs(t, pairs, ts, system), code,
                   if HasKey(pairs, code) then Step(f, Event(ts, Lookup(pairs, code).value, system)) else f, now)
  {
    if pairs != [] {
      var n := |pairs| - 1;
      var init := pairs[..n];
      DivertStatus.UniqueLast(pairs);
      TrackPairsStep(t, init, ts, system, code, f, now);
      var f' := if HasKey(init, code) then Step(f, Event(ts, Lookup(init, code).value, system)) else f;
      TrackWriteStep(TrackPairs(t, init, ts, system), pairs[n].0, pairs[n].1, ts, system, code, f', now);
      LookupLast(pairs, code);
    }
  }

  predicate EventsWellFormed(evs: seq<LegacyEvent>) {
    forall i :: 0 <= i < |evs| ==> KeysUnique(evs[i].locations)
  }

  /** Tracking the events keeps, for every hydrophone, exactly the fold of
      its own events. */
  lemma {:induction false} TrackEventsFolds(evs: seq<LegacyEvent>, code: string, now: int)
    requires WellFormed(evs)
    ensures Tracks(TrackEvents(evs), code, FoldEvents(CodeEvents(evs, code)), now)
  {
    if evs != [] {
      var n := |evs| - 1;
      var init := evs[..n];
      var e := evs[n];
      assert WellFormed(init) by {
        forall i | 0 <= i < n ensures KeysUnique(init[i].locations) {
          assert init[i] == evs[i];
        }
      }
      TrackEventsFolds(init, code, now);
      TrackPairsStep(TrackEvents(init), e.locations, e.timestamp, e.system, code, FoldEvents(CodeEvents(init, code)), now);
      assert TrackEvents(evs) == TrackPairs(TrackEvents(init), e.locations, e.timestamp, e.system);
      if HasKey(e.locations, code) {
        var ce := CodeEvents(init, code);
        var ev := Event(e.timestamp, Lookup(e.locations, code).value, e.system);
        assert CodeEvents(evs, code) == ce + [ev];
        assert (ce + [ev])[..|ce|] == ce;
        assert FoldEvents(ce + [ev]) == Step(FoldEvents(ce), ev);
      } else {
        assert CodeEvents(evs, code) == CodeEvents(init, code);
      }
    }
  }

  /** A hydrophone's state as a period lasting until `now`, if it has one. */
  function Ongoing(states: Assoc<string, Period>, code: string, now: int): seq<TimedPeriod> {
    match Lookup(states, code)
    case None => []
    case Some(st) => [TimedPeriod(st, now - st.start)]
  }

  lemma CloseOneLookup(periods: Assoc<string, seq<TimedPeriod>>, k: string, st: Period, now: int, code: string)
    requires KeysUnique(periods)
    ensures Lookup(CloseOne(periods, k, st, now), code) ==
              if code != k then Lookup(periods, code)
              else match Lookup(periods, code)
                   case None => None
                   case Some(tps) => Some(tps + [TimedPeriod(st, now - st.start)])
  {
  }

  lemma OngoingAppend(init: Assoc<string, Period>, p: (string, Period), code: string, now: int)
    requires !HasKey(init, p.0)
    ensures Ongoing(init + [p], code, now) ==
              if code == p.0 then [TimedPeriod(p.1, now - p.1.start)] else Ongoing(init, code, now)
  {
    LookupAppend(init, p, code);
  }

  /** Closing out appends its open period to each hydrophone that has both
      a state and a period list, and lists no other hydrophone. */
  lemma {:induction false} CloseOutLookup(states: Assoc<string, Period>, periods: Assoc<string, seq<TimedPeriod>>,
                                          now: int, code: string)
    requires KeysUnique(states) && KeysUnique(periods)
    ensures Lookup(CloseOut(states, periods, now), code) ==
              match Lookup(periods, code)
              case None => None
              case Some(tps) => Some(tps + Ongoing(states, code, now))
  {
    if states == [] {
      assert Ongoing(states, code, now) == [];
      if Lookup(periods, code).Some? {
        assert Lookup(periods, code).value + [] == Lookup(periods, code).value;
      }
    } else {
      var n := |states| - 1;
      var init, k, st := states[..n], states[n].0, states[n].1;
      OngoingLast(states, code, now);
      CloseOutLookup(init, periods, now, code);
      CloseOneLookup(CloseOut(init, periods, now), k, st, now, code);
      if Lookup(periods, code).Some? {
        var tps := Lookup(periods, code).value;
        assert tps + Ongoing(init, code, now) + (if code == k then [TimedPeriod(st, now - st.start)] else [])
               == tps + Ongoing(states, code, now);
      }
    }
  }

  /** The last state adds its period to the ongoing ones of the states
      before it, which have none for its hydrophone. */
  lemma OngoingLast(states: Assoc<string, Period>, code: string, now: int)
    requires KeysUnique(states) && states != []
    ensures var n := |states| - 1;
            KeysUnique(states[..n])
            && Ongoing(states, code, now) == Ongoing(states[..n], code, now)
                 + (if code == states[n].0 then [TimedPeriod(states[n].1, now - states[n].1.start)] else [])
            && (code == states[n].0 ==> Ongoing(states[..n], code, now) == [])
  {
    var n := |states| - 1;
    var init := states[..n];
    assert forall i :: 0 <= i < n ==> init[i] == states[i];
    assert !HasKey(init, states[n].0);
    assert init + [states[n]] == states;
    OngoingAppend(init, states[n], code, now);
  }

  /** `t` is the time of some event of `evs`. */
  ghost predicate TimeIn(t: int, evs: seq<LegacyEvent>) {
    exists j :: 0 <= j < |evs| && evs[j].timestamp == t
  }

  /** Every event of a hydrophone carries the time of some event of the
      history. */
  lemma {:induction false} CodeEventsFrom(evs: seq<LegacyEvent>, code: string)
    ensures forall i :: 0 <= i < |CodeEvents(evs, code)| ==> TimeIn(CodeEvents(evs, code)[i].timestamp, evs)
  {
    if evs != [] {
      var n := |evs| - 1;
      var init := evs[..n];
      CodeEventsFrom(init, code);
      var ci := CodeEvents(init, code);
      var ce := CodeEvents(evs, code);
      forall i | 0 <= i < |ce| ensures TimeIn(ce[i].timestamp, evs) {
        if i < |ci| {
          assert TimeIn(ci[i].timestamp, init);
          var j :| 0 <= j < n && init[j].timestamp == ci[i].timestamp;
          assert ce[i] == ci[i] && init[j] == evs[j];
        } else {
          assert evs[n].timestamp == ce[i].timestamp;
        }
      }
    }
  }

  /** A hydrophone has no events exactly when no event of the history
      names it. */
  lemma {:induction false} CodeEventsEmpty(evs: seq<LegacyEvent>, code: string)
    ensures CodeEvents(evs, code) == [] <==> forall j :: 0 <= j < |evs| ==> !HasKey(evs[j].locations, code)
  {
    if evs != [] {
      var n := |evs| - 1;
      var init := evs[..n];
      assert forall i :: 0 <= i < n ==> init[i] == evs[i];
      CodeEventsEmpty(init, code);
    }
  }

  /** A hydrophone's events in a time-sorted history are in time order. */
  lemma {:induction false} CodeEventsSorted(evs: seq<LegacyEvent>, code: string)
    requires SortedBy(evs, EventTime)
    ensures SortedByTime(CodeEvents(evs, code))
  {
    if evs != [] {
      var n := |evs| - 1;
      var init := evs[..n];
      assert SortedBy(init, EventTime) by {
        assert forall i :: 0 <= i < n ==> init[i] == evs[i];
      }
      CodeEventsSorted(init, code);
      CodeEventsFrom(init, code);
      var ce := CodeEvents(init, code);
      forall i | 0 <= i < |ce| ensures ce[i].timestamp <= evs[n].timestamp {
        assert TimeIn(ce[i].timestamp, init);
        var j :| 0 <= j < n && init[j].timestamp == ce[i].timestamp;
        assert init[j] == evs[j];
        assert EventTime(evs[j]) <= EventTime(evs[n]);
      }
    }
  }

  lemma PermutationWellFormed(h: seq<LegacyEvent>, r: seq<LegacyEvent>, code: string)
    requires WellFormed(h) && multiset(r) == multiset(h)
    ensures WellFormed(r)
    ensures (exists i :: 0 <= i < |r| && HasKey(r[i].locations, code)) <==>
            (exists i :: 0 <= i < |h| && HasKey(h[i].locations, code))
  {
    forall i | 0 <= i < |r| ensures KeysUnique(r[i].locations) {
      assert r[i] in multiset(h);
    }
    if i :| 0 <= i < |r| && HasKey(r[i].locations, code) {
      assert r[i] in multiset(h);
      var j :| 0 <= j < |h| && h[j] == r[i];
    }
    if i :| 0 <= i < |h| && HasKey(h[i].locations, code) {
      assert h[i] in multiset(r);
      var j :| 0 <= j < |r| && r[j] == h[i];
    }
  }

  /** `_calculate_divert_periods` gives a hydrophone the periods of its own
      events taken in time order, each with its duration (the last lasting
      until `now`), and lists it exactly when one of its events exists. */
  lemma LegacyPeriodsLookup(h: seq<LegacyEvent>, now: int, code: string)
    requires WellFormed(h)
    ensures var evs := CodeEvents(SortBy(h, EventTime), code);
            Lookup(LegacyPeriods(h, now), code) == if evs == [] then None else Some(TimedAll(BuildPeriods(evs), now))
  {
    var sorted := SortBy(h, EventTime);
    PermutationWellFormed(h, sorted, code);
    TrackedPeriods(sorted, now, code);
  }

  lemma TrackedPeriods(sorted: seq<LegacyEvent>, now: int, code: string)
    requires WellFormed(sorted)
    ensures var evs := CodeEvents(sorted, code);
            var t := TrackEvents(sorted);
            Lookup(CloseOut(t.states, t.periods, now), code) ==
              if evs == [] then None else Some(TimedAll(BuildPeriods(evs), now))
  {
    var evs := CodeEvents(sorted, code);
    var f := FoldEvents(evs);
    var t := TrackEvents(sorted);
    TrackEventsFolds(sorted, code, now);
    CloseOutLookup(t.states, t.periods, now, code);
    FoldEventsCurrent(evs);
    if evs != [] {
      var c := f.current.value;
      assert Ongoing(t.states, code, now) == [TimedPeriod(c, now - c.start)];
      assert Timed(c, now) == TimedPeriod(c, now - c.start);
      TimedAllAppend(f.closed, c, now);
    }
  }

  lemma {:induction false} TimedAllAt(ps: seq<Period>, now: int)
    ensures forall i :: 0 <= i < |ps| ==> TimedAll(ps, now)[i] == Timed(ps[i], now)
    ensures Untimed(TimedAll(ps, now)) == ps
  {
    if ps != [] {
      var n := |ps| - 1;
      TimedAllAt(ps[..n], now);
      assert Untimed(TimedAll(ps, now))[..n] == Untimed(TimedAll(ps[..n], now));
      assert TimedAll(ps, now)[..n] == TimedAll(ps[..n], now);
    }
  }

  /** A hydrophone has periods exactly when some event names it. */
  lemma LegacyPeriodsPresent(h: seq<LegacyEvent>, now: int, code: string)
    requires WellFormed(h)
    ensures Lookup(LegacyPeriods(h, now), code).Some? <==>
              exists i :: 0 <= i < |h| && HasKey(h[i].locations, code)
  {
    var sorted := SortBy(h, EventTime);
    PermutationWellFormed(h, sorted, code);
    LegacyPeriodsLookup(h, now, code);
    CodeEventsEmpty(sorted, code);
  }

  /** The periods of a hydrophone: in time order and contiguous; every one
      but the last closed, with its length as its duration; the last open,
      lasting until `now`. */
  lemma LegacyPeriodsShape(h: seq<LegacyEvent>, now: int, code: string)
    requires WellFormed(h)
    ensures Lookup(LegacyPeriods(h, now), code).Some? ==>
              var tps := Lookup(LegacyPeriods(h, now), code).value;
              tps != [] && Ordered(Untimed(tps)) && Contiguous(Untimed(tps))
              && tps[|tps| - 1].period.end.None?
              && tps[|tps| - 1].duration == now - tps[|tps| - 1].period.start
              && forall i :: 0 <= i < |tps| - 1 ==>
                   tps[i].period.end.Some? && 0 <= tps[i].duration == tps[i].period.end.value - tps[i].period.start
  {
    var sorted := SortBy(h, EventTime);
    PermutationWellFormed(h, sorted, code);
    var evs := CodeEvents(sorted, code);
    LegacyPeriodsLookup(h, now, code);
    if evs != [] {
      CodeEventsSorted(sorted, code);
      TimedPeriodsShape(evs, now);
    }
  }

  /** The timed periods of one hydrophone's time-ordered events. */
  lemma TimedPeriodsShape(evs: seq<Event>, now: int)
    requires evs != [] && SortedByTime(evs)
    ensures var tps := TimedAll(BuildPeriods(evs), now);
              tps != [] && Ordered(Untimed(tps)) && Contiguous(Untimed(tps))
              && tps[|tps| - 1].period.end.None?
              && tps[|tps| - 1].duration == now - tps[|tps| - 1].period.start
              && forall i :: 0 <= i < |tps| - 1 ==>
                   tps[i].period.end.Some? && 0 <= tps[i].duration == tps[i].period.end.value - tps[i].period.start
  {
    BuildPeriodsShape(evs);
    SortedEventsOrderedPeriods(evs);
    TimedShape(BuildPeriods(evs), now);
  }

  /** Timing ordered, contiguous periods: every one but the last lasts its
      own length, the last lasts until `now`. */
  lemma TimedShape(ps: seq<Period>, now: int)
    requires ps != [] && Ordered(ps) && Contiguous(ps)
    ensures var tps := TimedAll(ps, now);
              tps != [] && Untimed(tps) == ps
              && tps[|tps| - 1].period.end.None?
              && tps[|tps| - 1].duration == now - tps[|tps| - 1].period.start
              && forall i :: 0 <= i < |tps| - 1 ==>
                   tps[i].period.end.Some? && 0 <= tps[i].duration == tps[i].period.end.value - tps[i].period.start
  {
    TimedAllAt(ps, now);
    var tps := TimedAll(ps, now);
    var n := |ps| - 1;
    assert tps[n] == Timed(ps[n], now);
    forall i | 0 <= i < n
      ensures tps[i].period.end.Some? && 0 <= tps[i].duration == tps[i].period.end.value - tps[i].period.start
    {
      assert tps[i] == Timed(ps[i], now);
      assert ps[i].end.Some? && ps[i].start <= ps[i].end.value <= ps[n].start;
    }
  }

  /** One `(code, status)` tracked, as the body of the inner loop of
      `_calculate_divert_periods` does. */
  method WriteState(t: Tracker, code: string, status: string, ts: int, system: Option<string>) returns (r: Tracker)
    requires TrackerUnique(t)
    ensures r == TrackWrite(t, code, status, ts, system)
  {
    var states := t.states;
    var periods := t.periods;
    match Lookup(states, code) {
      case None =>
        states := Put(states, code, Period(ts, None, status, system));
        if Lookup(periods, code).None? {
          periods := Put(periods, code, []);
        }
      case Some(prev) =>
        if prev.status != status {
          periods := Put(periods, code, TimedOf(periods, code) + [TimedPeriod(ClosePeriod(prev, ts), ts - prev.start)]);
          states := Put(states, code, Period(ts, None, status, system));
        }
    }
    r := Tracker(states, periods);
  }

  /** The inner loop of `_calculate_divert_periods`: one event's pairs. */
  method TrackLoop(t: Tracker, pairs: Assoc<string, string>, ts: int, system: Option<string>) returns (r: Tracker)
    requires TrackerUnique(t)
    ensures r == TrackPairs(t, pairs, ts, system)
  {
    r := t;
    var j := 0;
    while j < |pairs|
      invariant 0 <= j <= |pairs|
      invariant r == TrackPairs(t, pairs[..j], ts, system)
    {
      assert pairs[..j + 1][..j] == pairs[..j];
      r := WriteState(r, pairs[j].0, pairs[j].1, ts, system);
      j := j + 1;
    }
    assert pairs[..j] == pairs;
  }

  /** The event loop of `_calculate_divert_periods`, oldest first. */
  method TrackAll(sorted: seq<LegacyEvent>) returns (t: Tracker)
    ensures t == TrackEvents(sorted)
  {
    t := Tracker([], []);
    var i := 0;
    while i < |sorted|
      invariant 0 <= i <= |sorted|
      invariant t == TrackEvents(sorted[..i])
    {
      assert sorted[..i + 1][..i] == sorted[..i];
      t := TrackLoop(t, sorted[i].locations, sorted[i].timestamp, sorted[i].system);
      i := i + 1;
    }
    assert sorted[..i] == sorted;
  }

  /** The closing loop of `_calculate_divert_periods`. */
  method CloseLoop(states: Assoc<string, Period>, tracked: Assoc<string, seq<TimedPeriod>>, now: int)
    returns (periods: Assoc<string, seq<TimedPeriod>>)
    requires KeysUnique(tracked)
    ensures periods == CloseOut(states, tracked, now)
  {
    periods := tracked;
    var k := 0;
    while k < |states|
      invariant 0 <= k <= |states|
      invariant periods == CloseOut(states[..k], tracked, now)
    {
      assert states[..k + 1][..k] == states[..k];
      var code := states[k].0;
      var st := states[k].1;
      match Lookup(periods, code) {
        case Some(tps) =>
          periods := Put(periods, code, tps + [TimedPeriod(st, now - st.start)]);
        case None =>
      }
      k := k + 1;
    }
    assert states[..k] == states;
  }

  /** `_calculate_divert_periods`: the history sorted oldest first, every
      event's pairs tracked, then every state closed at `now`. */
  method CalculateLegacyPeriods(h: seq<LegacyEvent>, now: int) returns (periods: Assoc<string, seq<TimedPeriod>>)
    ensures periods == LegacyPeriods(h, now)
  {
    var t := TrackAll(SortBy(h, EventTime));
    periods := CloseLoop(t.states, t.periods, now);
  }

  // ---------------------------------------------------------------------
  // Periods in a window

  /** The overlap filter of `get_divert_periods`, on timed periods. */
  function FilterTimed(tps: seq<TimedPeriod>, startDate: Option<int>, endDate: Option<int>, now: int): (r: seq<TimedPeriod>)
    ensures |r| <= |tps|
  {
    if tps == [] then []
    else
      var last := tps[|tps| - 1];
      FilterTimed(tps[..|tps| - 1], startDate, endDate, now)
      + (if Overlaps(last.period, startDate, endDate, now) then [last] else [])
  }

  function SelectTimed(tps: seq<TimedPeriod>, startDate: Option<int>, endDate: Option<int>, now: int): seq<TimedPeriod> {
    if startDate.Some? || endDate.Some? then FilterTimed(tps, startDate, endDate, now) else tps
  }

  /** The legacy filter keeps the same periods as the current parser's. */
  lemma {:induction false} FilterTimedAgrees(tps: seq<TimedPeriod>, startDate: Option<int>, endDate: Option<int>, now: int)
    ensures Untimed(FilterTimed(tps, startDate, endDate, now)) == FilterPeriods(Untimed(tps), startDate, endDate, now)
  {
    if tps != [] {
      var n := |tps| - 1;
      FilterTimedAgrees(tps[..n], startDate, endDate, now);
      var f := FilterTimed(tps[..n], startDate, endDate, now);
      assert Untimed(tps)[..n] == Untimed(tps[..n]);
      if Overlaps(tps[n].period, startDate, endDate, now) {
        assert Untimed(f + [tps[n]])[..|f|] == Untimed(f);
      } else {
        assert FilterTimed(tps, startDate, endDate, now) == f;
      }
    }
  }

  /** `get_divert_periods` selects what the current parser's query selects,
      and keeps the periods in time order. */
  lemma SelectTimedAgrees(tps: seq<TimedPeriod>, startDate: Option<int>, endDate: Option<int>, now: int)
    ensures Untimed(SelectTimed(tps, startDate, endDate, now)) == SelectPeriods(Untimed(tps), startDate, endDate, now)
    ensures Ordered(Untimed(tps)) ==> Ordered(Untimed(SelectTimed(tps, startDate, endDate, now)))
  {
    FilterTimedAgrees(tps, startDate, endDate, now);
    if Ordered(Untimed(tps)) {
      FilterPeriodsOrdered(Untimed(tps), startDate, endDate, now);
    }
  }

  /** `get_all_divert_periods`: every hydrophone with periods in the
      window, with those periods. */
  function SelectAll(dp: Assoc<string, seq<TimedPeriod>>, startDate: Option<int>, endDate: Option<int>, now: int)
    : Assoc<string, seq<TimedPeriod>>
  {
    MapFilter(dp, (tps: seq<TimedPeriod>) => SelectTimed(tps, startDate, endDate, now), (tps: seq<TimedPeriod>) => tps != [])
  }

  lemma SelectAllLookup(dp: Assoc<string, seq<TimedPeriod>>, startDate: Option<int>, endDate: Option<int>, now: int, code: string)
    requires KeysUnique(dp)
    ensures KeysUnique(SelectAll(dp, startDate, endDate, now))
    ensures Lookup(SelectAll(dp, startDate, endDate, now), code) ==
              var tps := SelectTimed(TimedOf(dp, code), startDate, endDate, now);
              if tps != [] then Some(tps) else None
  {
    MapFilterLookup(dp, (tps: seq<TimedPeriod>) => SelectTimed(tps, startDate, endDate, now),
                    (tps: seq<TimedPeriod>) => tps != [], code);
    if !HasKey(dp, code) {
      assert FilterTimed([], startDate, endDate, now) == [];
    }
  }

  // ---------------------------------------------------------------------
  // Statistics

  datatype LegacyStatistics = LegacyStatistics(
    location: string,
    totalPeriods: nat,
    divertEvents: nat,
    bypassEvents: nat,
    totalTime: int,
    divertTime: int,
    bypassTime: int,
    divertPercentage: real,
    bypassPercentage: real,
    timeframeStart: Option<int>,
    timeframeEnd: Option<int>)

  /** The timeframe: `end - start` when both bounds are given, else the
      span of the periods (an open one ending now), else zero. */
  function TotalTime(tps: seq<TimedPeriod>, startDate: Option<int>, endDate: Option<int>, now: int): int {
    if startDate.Some? && endDate.Some? then endDate.value - startDate.value
    else if tps != [] then LatestEnd(Untimed(tps), now) - EarliestStart(Untimed(tps))
    else 0
  }

  /** The recorded durations of `Divert` and `Bypass` periods summed and
      counted, whole, whatever the window; other statuses count nowhere. */
  function DurationTally(tps: seq<TimedPeriod>): (t: Tally)
    ensures t.divertCount + t.bypassCount <= |tps|
  {
    if tps == [] then Tally(0, 0, 0, 0)
    else
      var t := DurationTally(tps[..|tps| - 1]);
      var tp := tps[|tps| - 1];
      if tp.period.status == "Divert" then Tally(t.divertTime + tp.duration, t.bypassTime, t.divertCount + 1, t.bypassCount)
      else if tp.period.status == "Bypass" then Tally(t.divertTime, t.bypassTime + tp.duration, t.divertCount, t.bypassCount + 1)
      else t
  }

  /** `part / total * 100` when the total is positive, else 0: at most 100
      exactly when the part fits in the total. */
  function RawPercentage(part: int, total: int): (r: real)
    ensures total <= 0 ==> r == 0.0
    ensures total > 0 ==> (r <= 100.0 <==> part <= total) && (r >= 0.0 <==> part >= 0)
  {
    if total > 0 then
      var r := part as real / total as real * 100.0;
      assert r * total as real == part as real * 100.0;
      r
    else 0.0
  }

  /** `get_divert_statistics` over the already selected periods. */
  function LegacyStatisticsOf(code: string, tps: seq<TimedPeriod>, startDate: Option<int>, endDate: Option<int>, now: int)
    : (s: LegacyStatistics)
    ensures s.totalPeriods == |tps| && s.divertEvents + s.bypassEvents <= s.totalPeriods
    ensures s.totalTime > 0 ==> (s.divertPercentage <= 100.0 <==> s.divertTime <= s.totalTime)
    ensures s.totalTime <= 0 ==> s.divertPercentage == 0.0 && s.bypassPercentage == 0.0
  {
    var total := TotalTime(tps, startDate, endDate, now);
    var t := DurationTally(tps);
    LegacyStatistics(code, |tps|, t.divertCount, t.bypassCount, total, t.divertTime, t.bypassTime,
                     RawPercentage(t.divertTime, total), RawPercentage(t.bypassTime, total), startDate, endDate)
  }

  /** The statistics add whole recorded durations, so a period reaching
      into the window counts in full: a Divert period from 0 to 10 followed
      by an ongoing Bypass from 10, queried over the window [5, 10] at time
      10, reports 200% divert time where the current parser's clipped
      statistics report 100%. */
  lemma UnclippedPercentageExceeds()
    ensures var tps := TimedAll(BuildPeriods([Event(0, "Divert", None), Event(10, "Bypass", None)]), 10);
            var sel := SelectTimed(tps, Some(5), Some(10), 10);
            LegacyStatisticsOf("c", sel, Some(5), Some(10), 10).divertPercentage == 200.0
            && StatisticsOf("c", Untimed(sel), Some(5), Some(10), 10).divertPercentage == 100.0
  {
    var d := Period(0, Some(10), "Divert", None);
    var b := Period(10, None, "Bypass", None);
    var tps := [TimedPeriod(d, 10), TimedPeriod(b, 0)];
    UnclippedPeriods();
    UnclippedTallies();
    assert SelectTimed(tps, Some(5), Some(10), 10) == tps;
    assert Untimed(tps) == [d, b];
    var legacy := LegacyStatisticsOf("c", tps, Some(5), Some(10), 10);
    assert legacy.divertPercentage == RawPercentage(10, 5);
    var current := StatisticsOf("c", [d, b], Some(5), Some(10), 10);
    assert current.divertPercentage == Percentage(5, 5);
  }

  /** The timed periods of the example: Divert for 10 seconds, then an
      ongoing Bypass. */
  lemma UnclippedPeriods()
    ensures TimedAll(BuildPeriods([Event(0, "Divert", None), Event(10, "Bypass", None)]), 10)
            == [TimedPeriod(Period(0, Some(10), "Divert", None), 10), TimedPeriod(Period(10, None, "Bypass", None), 0)]
  {
    var es := [Event(0, "Divert", None), Event(10, "Bypass", None)];
    assert "Divert" != "Bypass" by { assert "Divert"[0] != "Bypass"[0]; }
    var d := Period(0, Some(10), "Divert", None);
    var b := Period(10, None, "Bypass", None);
    assert es[..1][..0] == [];
    assert FoldEvents(es[..1]) == Fold([], Some(Period(0, None, "Divert", None)));
    assert es[..2][..1] == es[..1];
    assert es[..2] == es;
    assert FoldEvents(es) == Fold([d], Some(b));
    assert BuildPeriods(es) == [d, b];
    assert [d, b][..1] == [d];
    assert TimedAll([d], 10) == [TimedPeriod(d, 10)];
  }

  /** Both periods of the example reach into [5, 10]; the whole 10 seconds
      of Divert are added, against 5 seconds once clipped. */
  lemma UnclippedTallies()
    ensures var d, b := Period(0, Some(10), "Divert", None), Period(10, None, "Bypass", None);
            var tps := [TimedPeriod(d, 10), TimedPeriod(b, 0)];
            FilterTimed(tps, Some(5), Some(10), 10) == tps
            && DurationTally(tps) == Tally(10, 0, 1, 1)
            && TallyPeriods([d, b], 5, 10, 10) == Tally(5, 0, 1, 0)
  {
    var d := Period(0, Some(10), "Divert", None);
    var b := Period(10, None, "Bypass", None);
    var tps := [TimedPeriod(d, 10), TimedPeriod(b, 0)];
    assert "Divert" != "Bypass" by { assert "Divert"[0] != "Bypass"[0]; }
    assert tps[..1] == [TimedPeriod(d, 10)];
    assert FilterTimed(tps[..1], Some(5), Some(10), 10) == [TimedPeriod(d, 10)];
    assert DurationTally(tps[..1]) == Tally(10, 0, 1, 0);
    assert [d, b][..1] == [d];
    assert TallyPeriods([d, b][..1], 5, 10, 10) == Tally(5, 0, 1, 0);
  }

  // ---------------------------------------------------------------------
  // Summary

  /** Only `Divert` and `Bypass` are ever recorded. */
  predicate StatusWords(h: seq<LegacyEvent>) {
    forall i :: 0 <= i < |h| ==> AllValues(h[i].locations, LegacyEmail.IsStatusWord)
  }

  lemma ParsedStatusWords(subject: string, body: string)
    ensures AllValues(LegacyEmail.ParseEmail(subject, body).locations, LegacyEmail.IsStatusWord)
  {
    var locs := LegacyEmail.ParseEmail(subject, body).locations;
    forall i | 0 <= i < |locs| ensures LegacyEmail.IsStatusWord(locs[i].1) {
      LegacyEmail.ParseEmailLocationFromLine(subject, body, locs[i].0);
    }
  }

  lemma {:induction false} HydrophoneStatusWords(table: Table, locations: Assoc<string, string>)
    requires AllValues(locations, LegacyEmail.IsStatusWord)
    ensures AllValues(DivertEmail.HydrophoneStatus(table, locations), LegacyEmail.IsStatusWord)
  {
    if locations != [] {
      var n := |locations| - 1;
      assert AllValues(locations[..n], LegacyEmail.IsStatusWord) by {
        forall i | 0 <= i < n ensures LegacyEmail.IsStatusWord(locations[..n][i].1) {
          assert locations[..n][i] == locations[i];
        }
      }
      HydrophoneStatusWords(table, locations[..n]);
      PutAllValues(DivertEmail.HydrophoneStatus(table, locations[..n]),
                   DivertEmail.CodePairs(LocationMappings.Get(table, locations[n].0), locations[n].1),
                   LegacyEmail.IsStatusWord);
    }
  }

  /** Every status an event carries is a status word read from a line. */
  lemma CollectEventsStatusWords(table: Table, ms: seq<Message>)
    ensures StatusWords(CollectEvents(table, ms))
  {
    var h := CollectEvents(table, ms);
    var f := (m: Message) => EventOf(table, m);
    forall i | 0 <= i < |h| ensures AllValues(h[i].locations, LegacyEmail.IsStatusWord) {
      FilterMapMembers(ms, f, h[i]);
      var k :| 0 <= k < |ms| && f(ms[k]) == Some(h[i]);
      ParsedStatusWords(ms[k].subject, ms[k].body);
      HydrophoneStatusWords(table, LegacyEmail.ParseEmail(ms[k].subject, ms[k].body).locations);
    }
  }

  predicate IsStatusInfoWord(info: StatusInfo) {
    LegacyEmail.IsStatusWord(info.status)
  }

  lemma {:induction false} InfosWords(locations: Assoc<string, string>, ts: int, system: Option<string>)
    requires AllValues(locations, LegacyEmail.IsStatusWord)
    ensures AllValues(Infos(locations, ts, system), IsStatusInfoWord)
  {
    if locations != [] {
      var n := |locations| - 1;
      assert AllValues(locations[..n], LegacyEmail.IsStatusWord) by {
        forall i | 0 <= i < n ensures LegacyEmail.IsStatusWord(locations[..n][i].1) {
          assert locations[..n][i] == locations[i];
        }
      }
      InfosWords(locations[..n], ts, system);
      var r := Infos(locations, ts, system);
      forall i | 0 <= i < |r| ensures IsStatusInfoWord(r[i].1) {
        if i < n {
          assert r[i] == Infos(locations[..n], ts, system)[i];
        }
      }
    }
  }

  /** Every current status is `Divert` or `Bypass`. */
  lemma {:induction false} ReplayStatusWords(h: seq<LegacyEvent>)
    requires StatusWords(h)
    ensures AllValues(Replay(h), IsStatusInfoWord)
  {
    if h != [] {
      assert StatusWords(h[1..]) by {
        forall i | 0 <= i < |h[1..]| ensures AllValues(h[1..][i].locations, LegacyEmail.IsStatusWord) {
          assert h[1..][i] == h[i + 1];
        }
      }
      ReplayStatusWords(h[1..]);
      InfosWords(h[0].locations, h[0].timestamp, h[0].system);
      PutAllValues(Replay(h[1..]), Infos(h[0].locations, h[0].timestamp, h[0].system), IsStatusInfoWord);
    }
  }

  /** With only status words recorded, the hydrophones not diverted are
      exactly the bypassed ones. */
  lemma {:induction false} CountStatusWords(cur: Assoc<string, StatusInfo>)
    requires AllValues(cur, IsStatusInfoWord)
    ensures DivertStatus.CountStatus(cur, "Divert") + DivertStatus.CountStatus(cur, "Bypass") == |cur|
  {
    if cur != [] {
      var n := |cur| - 1;
      assert AllValues(cur[..n], IsStatusInfoWord) by {
        forall i | 0 <= i < n ensures IsStatusInfoWord(cur[..n][i].1) {
          assert cur[..n][i] == cur[i];
        }
      }
      CountStatusWords(cur[..n]);
      assert "Divert" != "Bypass" by { assert "Divert"[0] != "Bypass"[0]; }
    }
  }

  /** `get_divert_summary`: every hydrophone not diverted counts as bypassed. */
  function LegacySummary(cur: Assoc<string, StatusInfo>, eventsProcessed: nat): (s: DivertStatus.Summary)
    ensures s.totalMonitored == |cur| && s.eventsProcessed == eventsProcessed
    ensures s.currentlyDiverted + s.currentlyBypass == s.totalMonitored
    ensures AllValues(cur, IsStatusInfoWord) ==> s.currentlyBypass == DivertStatus.CountStatus(cur, "Bypass")
  {
    var diverted := DivertStatus.CountStatus(cur, "Divert");
    assert AllValues(cur, IsStatusInfoWord) ==> |cur| - diverted == DivertStatus.CountStatus(cur, "Bypass") by {
      if AllValues(cur, IsStatusInfoWord) {
        CountStatusWords(cur);
      }
    }
    DivertStatus.Summary(|cur|, diverted, |cur| - diverted, eventsProcessed)
  }

  // ---------------------------------------------------------------------
  // The parser object

  /** A newest-first history of well-formed events, the status it replays
      to, and the periods it gives when computed at time `at`. */
  ghost predicate Consistent(h: seq<LegacyEvent>, cur: Assoc<string, StatusInfo>,
                             dp: Assoc<string, seq<TimedPeriod>>, at: int) {
    NewestFirstSorted(h) && WellFormed(h) && StatusWords(h)
    && cur == Replay(h) && dp == LegacyPeriods(h, at)
  }

  class LegacyDivertParser {
    /** The location table the parser maps names with. */
    const table: Table
    var divertHistory: seq<LegacyEvent>
    var currentDivertStatus: Assoc<string, StatusInfo>
    var divertPeriods: Assoc<string, seq<TimedPeriod>>
    /** The time the periods were last computed at (open periods last until then). */
    ghost var computedAt: int

    /** The status and the periods are what the kept events give. */
    ghost predicate Valid()
      reads this
    {
      Consistent(divertHistory, currentDivertStatus, divertPeriods, computedAt)
    }

    constructor ()
      ensures table == LocationMappings.LocationMapping
      ensures divertHistory == [] && currentDivertStatus == [] && divertPeriods == []
      ensures Valid()
    {
      table := LocationMappings.LocationMapping;
      divertHistory := [];
      currentDivertStatus := [];
      divertPeriods := [];
      computedAt := 0;
    }

    /** `update_divert_status` on the fetched messages at time `now`: keep
        the events, newest first; replay them oldest to newest for the
        current status; rebuild the periods. */
    method UpdateDivertStatus(messages: seq<Message>, now: int) returns (cur: Assoc<string, StatusInfo>)
      modifies this
      ensures Valid()
      ensures divertHistory == NewestFirst(CollectEvents(table, messages))
      ensures cur == currentDivertStatus == Replay(divertHistory)
      ensures divertPeriods == LegacyPeriods(divertHistory, now) && computedAt == now
    {
      var events := KeepEvents(messages);
      var sorted := NewestFirst(events);
      cur := CurrentStatus(sorted);
      var periods := CalculateLegacyPeriods(sorted, now);
      KeptHistoryWellFormed(table, messages);
      assert Consistent(sorted, cur, periods, now);
      divertHistory, currentDivertStatus, divertPeriods, computedAt := sorted, cur, periods, now;
    }

    /** The message loop of `update_divert_status`. */
    method KeepEvents(messages: seq<Message>) returns (events: seq<LegacyEvent>)
      ensures events == CollectEvents(table, messages)
    {
      events := [];
      var i := 0;
      while i < |messages|
        invariant 0 <= i <= |messages|
        invariant events == CollectEvents(table, messages[..i])
      {
        assert messages[..i + 1][..i] == messages[..i];
        var m := messages[i];
        if IsDivertSubject(m.subject) {
          var parsed := LegacyEmail.ParseDivertEmail(m.subject, m.body);
          if parsed.timestamp.Some? && parsed.locations != [] {
            var hs := LegacyEmail.MapLocationsToHydrophones(table, parsed.locations);
            events := events + [LegacyEvent(parsed.timestamp.value, parsed.system, hs, m.subject)];
          }
        }
        i := i + 1;
      }
      assert messages[..i] == messages;
    }

    /** `get_location_divert_info`: the record of the newest event naming
        the hydrophone, if any. */
    function GetLocationDivertInfo(code: string): (r: Option<StatusInfo>)
      reads this
      ensures Valid() ==> r == NewestInfo(divertHistory, code)
    {
      var r := Lookup(currentDivertStatus, code);
      assert Valid() ==> r == NewestInfo(divertHistory, code) by {
        if Valid() {
          ReplayLookup(divertHistory, code);
        }
      }
      r
    }

    /** `is_location_diverted`: the newest event naming the hydrophone says
        `Divert` (a missing record reads as false). */
    function IsLocationDiverted(code: string): (r: bool)
      reads this
      ensures Valid() ==> (r <==> NewestInfo(divertHistory, code).Some?
                                  && NewestInfo(divertHistory, code).value.status == "Divert")
    {
      var info := GetLocationDivertInfo(code);
      info.Some? && info.value.status == "Divert"
    }

    /** `get_divert_summary`. */
    function GetDivertSummary(): (s: DivertStatus.Summary)
      reads this
      ensures s.totalMonitored == |currentDivertStatus| && s.eventsProcessed == |divertHistory|
      ensures s.currentlyDiverted + s.currentlyBypass == s.totalMonitored
      ensures Valid() ==> s.currentlyDiverted == DivertStatus.CountStatus(currentDivertStatus, "Divert")
                          && s.currentlyBypass == DivertStatus.CountStatus(currentDivertStatus, "Bypass")
    {
      assert Valid() ==> AllValues(currentDivertStatus, IsStatusInfoWord) by {
        if Valid() {
          ReplayStatusWords(divertHistory);
        }
      }
      LegacySummary(currentDivertStatus, |divertHistory|)
    }

    /** `get_divert_periods`: a hydrophone's periods, or with a bound given
        the ones overlapping the window, as the current parser selects
        them, in time order. */
    method GetDivertPeriods(code: string, startDate: Option<int>, endDate: Option<int>, now: int)
      returns (tps: seq<TimedPeriod>)
      ensures tps == SelectTimed(TimedOf(divertPeriods, code), startDate, endDate, now)
      ensures Untimed(tps) == SelectPeriods(Untimed(TimedOf(divertPeriods, code)), startDate, endDate, now)
      ensures Valid() ==> Ordered(Untimed(tps))
    {
      var periods := TimedOf(divertPeriods, code);
      tps := SelectLoop(periods, startDate, endDate, now);
      SelectTimedAgrees(periods, startDate, endDate, now);
      if Valid() {
        StoredPeriodsOrdered(code);
      }
    }

    lemma StoredPeriodsOrdered(code: string)
      requires Valid()
      ensures Ordered(Untimed(TimedOf(divertPeriods, code)))
    {
      LegacyPeriodsShape(divertHistory, computedAt, code);
    }

    /** The filtering loop of `get_divert_periods`. */
    static method SelectLoop(periods: seq<TimedPeriod>, startDate: Option<int>, endDate: Option<int>, now: int)
      returns (tps: seq<TimedPeriod>)
      ensures tps == SelectTimed(periods, startDate, endDate, now)
    {
      if startDate.Some? || endDate.Some? {
        tps := [];
        var i := 0;
        while i < |periods|
          invariant 0 <= i <= |periods|
          invariant tps == FilterTimed(periods[..i], startDate, endDate, now)
        {
          assert periods[..i + 1][..i] == periods[..i];
          var p := periods[i];
          var periodEnd := if p.period.end.Some? then p.period.end.value else now;
          if startDate.Some? && periodEnd < startDate.value {
          } else if endDate.Some? && p.period.start > endDate.value {
          } else {
            tps := tps + [p];
          }
          i := i + 1;
        }
        assert periods[..i] == periods;
      } else {
        tps := periods;
      }
    }

    /** `get_divert_statistics`: whole durations of the selected periods
        against the timeframe. */
    method GetDivertStatistics(code: string, startDate: Option<int>, endDate: Option<int>, now: int)
      returns (s: LegacyStatistics)
      ensures s == LegacyStatisticsOf(code, SelectTimed(TimedOf(divertPeriods, code), startDate, endDate, now),
                                      startDate, endDate, now)
    {
      var periods := GetDivertPeriods(code, startDate, endDate, now);
      var total := 0;
      if startDate.Some? && endDate.Some? {
        total := endDate.value - startDate.value;
      } else if periods != [] {
        total := LatestEnd(Untimed(periods), now) - EarliestStart(Untimed(periods));
      }
      var t := DurationLoop(periods);
      s := LegacyStatistics(code, |periods|, t.divertCount, t.bypassCount, total, t.divertTime, t.bypassTime,
                            RawPercentage(t.divertTime, total), RawPercentage(t.bypassTime, total), startDate, endDate);
    }

    /** The summing loop of `get_divert_statistics`. */
    static method DurationLoop(periods: seq<TimedPeriod>) returns (t: Tally)
      ensures t == DurationTally(periods)
    {
      var divertTime := 0;
      var bypassTime := 0;
      var divertCount: nat := 0;
      var bypassCount: nat := 0;
      var i := 0;
      while i < |periods|
        invariant 0 <= i <= |periods|
        invariant DurationTally(periods[..i]) == Tally(divertTime, bypassTime, divertCount, bypassCount)
      {
        assert periods[..i + 1][..i] == periods[..i];
        var p := periods[i];
        if p.period.status == "Divert" {
          divertTime := divertTime + p.duration;
          divertCount := divertCount + 1;
        } else if p.period.status == "Bypass" {
          bypassTime := bypassTime + p.duration;
          bypassCount := bypassCount + 1;
        }
        i := i + 1;
      }
      assert periods[..i] == periods;
      t := Tally(divertTime, bypassTime, divertCount, bypassCount);
    }

    /** `get_all_divert_periods`: every hydrophone with periods in the
        window, with those periods; no other hydrophone. */
    method GetAllDivertPeriods(startDate: Option<int>, endDate: Option<int>, now: int)
      returns (all: Assoc<string, seq<TimedPeriod>>)
      ensures all == SelectAll(divertPeriods, startDate, endDate, now)
      ensures Valid() ==> (forall code :: Lookup(all, code) ==
                             var tps := SelectTimed(TimedOf(divertPeriods, code), startDate, endDate, now);
                             if tps != [] then Some(tps) else None)
    {
      all := SelectEach(divertPeriods, startDate, endDate, now);
      if Valid() {
        forall code ensures Lookup(all, code) ==
                  var tps := SelectTimed(TimedOf(divertPeriods, code), startDate, endDate, now);
                  if tps != [] then Some(tps) else None
        {
          SelectAllLookup(divertPeriods, startDate, endDate, now, code);
        }
      }
    }

    /** The loop of `get_all_divert_periods`. */
    static method SelectEach(dp: Assoc<string, seq<TimedPeriod>>, startDate: Option<int>, endDate: Option<int>, now: int)
      returns (all: Assoc<string, seq<TimedPeriod>>)
      ensures all == SelectAll(dp, startDate, endDate, now)
    {
      all := [];
      var i := 0;
      while i < |dp|
        invariant 0 <= i <= |dp|
        invariant all == SelectAll(dp[..i], startDate, endDate, now)
      {
        assert dp[..i + 1][..i] == dp[..i];
        var tps := SelectLoop(dp[i].1, startDate, endDate, now);
        if tps != [] {
          all := all + [(dp[i].0, tps)];
        }
        i := i + 1;
      }
      assert dp[..i] == dp;
    }
  }

  /** The kept history names each hydrophone at most once per event and
      records only status words. */
  lemma KeptHistoryWellFormed(table: Table, messages: seq<Message>)
    ensures WellFormed(NewestFirst(CollectEvents(table, messages)))
    ensures StatusWords(NewestFirst(CollectEvents(table, messages)))
  {
    var events := CollectEvents(table, messages);
    CollectEventsMembers(table, messages);
    CollectEventsStatusWords(table, messages);
    PermutationWellFormed(events, NewestFirst(events), "");
    PermutationStatusWords(events, NewestFirst(events));
  }

  lemma PermutationStatusWords(h: seq<LegacyEvent>, r: seq<LegacyEvent>)
    requires StatusWords(h) && multiset(r) == multiset(h)
    ensures StatusWords(r)
  {
    forall i | 0 <= i < |r| ensures AllValues(r[i].locations, LegacyEmail.IsStatusWord) {
      assert r[i] in multiset(h);
    }
  }
}

