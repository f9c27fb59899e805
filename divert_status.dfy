/** What the current parser keeps between refreshes, as functions of the
    fetched messages: the notifications it keeps (newest first), each
    hydrophone's current status, each hydrophone's events and periods, and
    the periods of every hydrophone inside a window. */
module DivertStatus {
  import opened Text
  import opened Dict
  import opened Subject
  import opened DivertEmail
  import opened DivertPeriods

  // ---------------------------------------------------------------------
  // The notifications kept

  /** A subject `update_divert_status` parses: non-empty and naming either
      "[Divert]" or "DDS". */
  predicate IsDivertSubject(subject: string) {
    subject != [] && (Contains(subject, "[Divert]") || Contains(subject, "DDS"))
  }

  /** The parse of `m`, when its subject is a divert subject and it names
      at least one location. */
  function KeptParse(m: Message): Option<ParsedEmail> {
    var e := ParseEmail(m.subject, m.body);
    if IsDivertSubject(m.subject) && e.locations != [] then Some(e) else None
  }

  /** Parsed notifications, in arrival order, with at least one location. */
  function ParseMessages(ms: seq<Message>): seq<ParsedEmail> {
    FilterMap(ms, KeptParse)
  }

  /** An email is kept exactly when it is the parse of a message with a
      divert subject and it names a location; there are never more kept
      emails than messages. */
  lemma ParseMessagesMembers(ms: seq<Message>, e: ParsedEmail)
    ensures |ParseMessages(ms)| <= |ms|
    ensures e in ParseMessages(ms) <==>
              exists i :: 0 <= i < |ms| && IsDivertSubject(ms[i].subject)
                          && e == ParseEmail(ms[i].subject, ms[i].body) && e.locations != []
  {
    FilterMapMembers(ms, KeptParse, e);
  }

  /** The sort key: the timestamp, or `datetime.min` when there is none. */
  function SortKey(e: ParsedEmail): int {
    if e.timestamp.Some? then e.timestamp.value else DateTimeMin
  }

  function Recency(e: ParsedEmail): int {
    -SortKey(e)
  }

  predicate NewestFirstSorted(es: seq<ParsedEmail>) {
    forall i, j :: 0 <= i < j < |es| ==> SortKey(es[i]) >= SortKey(es[j])
  }

  /** `sort(key=..., reverse=True)`: newest first, a permutation of the
      input, and emails with the same time stay in arrival order (Python's
      sort stays stable when reversed). */
  function NewestFirst(es: seq<ParsedEmail>): (r: seq<ParsedEmail>)
    ensures NewestFirstSorted(r)
    ensures multiset(r) == multiset(es)
    ensures forall t :: WithKey(r, Recency, t) == WithKey(es, Recency, t)
  {
    var r := SortBy(es, Recency);
    assert forall i, j :: 0 <= i < j < |r| ==> Recency(r[i]) <= Recency(r[j]);
    assert forall t :: WithKey(r, Recency, t) == WithKey(es, Recency, t) by {
      forall t ensures WithKey(r, Recency, t) == WithKey(es, Recency, t) {
        SortByStable(es, Recency, t);
      }
    }
    r
  }

  // ---------------------------------------------------------------------
  // Current status per hydrophone

  datatype StatusInfo = StatusInfo(status: string, timestamp: Option<int>, system: Option<string>)

  /** Both timestamps present and the new one later. (When the stored one
      is absent and the new one present Python raises; see README.) */
  predicate Newer(t: Option<int>, stored: Option<int>) {
    t.Some? && stored.Some? && t.value > stored.value
  }

  /** One email's `(code, status)` pairs: a code is recorded when it has no
      status yet or the email is strictly newer than the recorded one. */
  function ResolvePairs(cur: Assoc<string, StatusInfo>, pairs: seq<(string, string)>,
                        ts: Option<int>, system: Option<string>): (r: Assoc<string, StatusInfo>)
    requires KeysUnique(cur)
    ensures KeysUnique(r)
  {
    if pairs == [] then cur
    else
      var c := ResolvePairs(cur, pairs[..|pairs| - 1], ts, system);
      var p := pairs[|pairs| - 1];
      var stored := Lookup(c, p.0);
      if stored.None? || Newer(ts, stored.value.timestamp) then Put(c, p.0, StatusInfo(p.1, ts, system))
      else c
  }

  /** Every email in list order, each resolved through the location table. */
  function ResolveAll(table: Table, es: seq<ParsedEmail>): (r: Assoc<string, StatusInfo>)
    ensures KeysUnique(r)
  {
    if es == [] then []
    else
      var e := es[|es| - 1];
      ResolvePairs(ResolveAll(table, es[..|es| - 1]), HydrophoneStatus(table, e.locations), e.timestamp, e.system)
  }

  predicate Names(table: Table, e: ParsedEmail, code: string) {
    HasKey(HydrophoneStatus(table, e.locations), code)
  }

  function InfoFrom(table: Table, e: ParsedEmail, code: string): StatusInfo
    requires Names(table, e, code)
  {
    StatusInfo(Lookup(HydrophoneStatus(table, e.locations), code).value, e.timestamp, e.system)
  }

  /** The status the first email of the list that names `code` gives it. */
  function FirstStatus(table: Table, es: seq<ParsedEmail>, code: string): (r: Option<StatusInfo>)
    ensures r.None? <==> forall i :: 0 <= i < |es| ==> !Names(table, es[i], code)
  {
    if es == [] then None
    else
      var n := |es| - 1;
      var r := FirstStatus(table, es[..n], code);
      assert forall i :: 0 <= i < n ==> es[..n][i] == es[i];
      if r.Some? then r
      else if Names(table, es[n], code) then Some(InfoFrom(table, es[n], code))
      else None
  }

  /** `es[i]` is the first email of `es` naming `code`. */
  predicate FirstNaming(table: Table, es: seq<ParsedEmail>, code: string, i: int) {
    0 <= i < |es| && Names(table, es[i], code) && forall j :: 0 <= j < i ==> !Names(table, es[j], code)
  }

  /** The status found is that of the first email naming the code. */
  lemma {:induction false} FirstStatusFirst(table: Table, es: seq<ParsedEmail>, code: string)
    requires FirstStatus(table, es, code).Some?
    ensures exists i :: FirstNaming(table, es, code, i) && FirstStatus(table, es, code).value == InfoFrom(table, es[i], code)
  {
    var n := |es| - 1;
    var init := es[..n];
    var r := FirstStatus(table, init, code);
    if r.Some? {
      FirstStatusFirst(table, init, code);
      var i :| FirstNaming(table, init, code, i) && r.value == InfoFrom(table, init[i], code);
      assert forall j :: 0 <= j <= i ==> init[j] == es[j];
      assert FirstNaming(table, es, code, i);
    } else {
      assert forall j :: 0 <= j < n ==> init[j] == es[j];
      assert FirstNaming(table, es, code, n);
    }
  }

  /** A recorded status survives an email that is not strictly newer. */
  lemma {:induction false} ResolvePairsKeep(cur: Assoc<string, StatusInfo>, pairs: seq<(string, string)>,
                                            ts: Option<int>, system: Option<string>, code: string, info: StatusInfo)
    requires KeysUnique(cur)
    requires Lookup(cur, code) == Some(info) && !Newer(ts, info.timestamp)
    ensures Lookup(ResolvePairs(cur, pairs, ts, system), code) == Some(info)
  {
    if pairs != [] {
      ResolvePairsKeep(cur, pairs[..|pairs| - 1], ts, system, code, info);
    }
  }

  /** A code with no status yet takes the email's status for it, if any. */
  lemma {:induction false} ResolvePairsFresh(cur: Assoc<string, StatusInfo>, pairs: seq<(string, string)>,
                                             ts: Option<int>, system: Option<string>, code: string)
    requires KeysUnique(cur) && !HasKey(cur, code)
    ensures Lookup(ResolvePairs(cur, pairs, ts, system), code) ==
              if HasKey(pairs, code) then Some(StatusInfo(Lookup(pairs, code).value, ts, system)) else None
  {
    if pairs != [] {
      var n := |pairs| - 1;
      var init := pairs[..n];
      var p := pairs[n];
      ResolvePairsFresh(cur, init, ts, system, code);
      assert init + [p] == pairs;
      LookupAppend(init, p, code);
    }
  }

  lemma ResolveStep(cur: Assoc<string, StatusInfo>, pairs: seq<(string, string)>,
                    ts: Option<int>, system: Option<string>, code: string, first: Option<StatusInfo>)
    requires KeysUnique(cur) && Lookup(cur, code) == first
    requires first.Some? ==> !Newer(ts, first.value.timestamp)
    ensures Lookup(ResolvePairs(cur, pairs, ts, system), code) ==
              if first.Some? then first
              else if HasKey(pairs, code) then Some(StatusInfo(Lookup(pairs, code).value, ts, system))
              else None
  {
    if first.Some? {
      ResolvePairsKeep(cur, pairs, ts, system, code, first.value);
    } else {
      ResolvePairsFresh(cur, pairs, ts, system, code);
    }
  }

  lemma FirstStatusStep(table: Table, es: seq<ParsedEmail>, code: string)
    requires es != []
    ensures var n := |es| - 1;
            var first := FirstStatus(table, es[..n], code);
            FirstStatus(table, es, code) ==
              if first.Some? then first
              else if Names(table, es[n], code) then Some(InfoFrom(table, es[n], code))
              else None
  {
  }

  lemma FirstStatusNotNewer(table: Table, es: seq<ParsedEmail>, code: string)
    requires es != [] && NewestFirstSorted(es)
    ensures var n := |es| - 1;
            var first := FirstStatus(table, es[..n], code);
            first.Some? ==> !Newer(es[n].timestamp, first.value.timestamp)
  {
    var n := |es| - 1;
    var first := FirstStatus(table, es[..n], code);
    if first.Some? {
      FirstStatusFirst(table, es[..n], code);
      var i :| FirstNaming(table, es[..n], code, i) && first.value == InfoFrom(table, es[..n][i], code);
      assert es[..n][i] == es[i];
      assert SortKey(es[i]) >= SortKey(es[n]);
    }
  }

  /** Newest first, the first email naming a code decides its status: no
      later (older or undated) email is strictly newer. */
  lemma {:induction false} ResolveAllFirst(table: Table, es: seq<ParsedEmail>, code: string)
    requires NewestFirstSorted(es)
    ensures Lookup(ResolveAll(table, es), code) == FirstStatus(table, es, code)
  {
    if es != [] {
      var n := |es| - 1;
      var init := es[..n];
      var e := es[n];
      assert NewestFirstSorted(init) by {
        forall i, j | 0 <= i < j < |init| ensures SortKey(init[i]) >= SortKey(init[j]) {
          assert init[i] == es[i] && init[j] == es[j];
        }
      }
      ResolveAllFirst(table, init, code);
      FirstStatusNotNewer(table, es, code);
      FirstStatusStep(table, es, code);
      ResolveStep(ResolveAll(table, init), HydrophoneStatus(table, e.locations), e.timestamp, e.system,
                  code, FirstStatus(table, init, code));
    }
  }

  /** The status recorded for a hydrophone comes from a kept email naming
      it, and no kept email naming it is newer. */
  lemma NewestStatusWins(table: Table, es: seq<ParsedEmail>, code: string)
    requires NewestFirstSorted(es)
    ensures Lookup(ResolveAll(table, es), code).None? <==> forall i :: 0 <= i < |es| ==> !Names(table, es[i], code)
    ensures Lookup(ResolveAll(table, es), code).Some? ==>
              exists i :: 0 <= i < |es| && Names(table, es[i], code)
                          && Lookup(ResolveAll(table, es), code).value == InfoFrom(table, es[i], code)
                          && forall j :: 0 <= j < |es| && Names(table, es[j], code) ==> SortKey(es[j]) <= SortKey(es[i])
  {
    ResolveAllFirst(table, es, code);
    var r := FirstStatus(table, es, code);
    if r.Some? {
      FirstStatusFirst(table, es, code);
      var i :| FirstNaming(table, es, code, i) && r.value == InfoFrom(table, es[i], code);
      forall j | 0 <= j < |es| && Names(table, es[j], code) ensures SortKey(es[j]) <= SortKey(es[i]) {
        if j != i {
          assert i < j;
        }
      }
    }
  }

  /** Number of hydrophones whose current status is `status`. */
  function CountStatus(cur: Assoc<string, StatusInfo>, status: string): (n: nat)
    ensures n <= |cur|
  {
    if cur == [] then 0
    else CountStatus(cur[..|cur| - 1], status) + (if cur[|cur| - 1].1.status == status then 1 else 0)
  }

  /** Diverted and bypassed hydrophones are never more than those with a
      status. */
  lemma {:induction false} DivertBypassWithinTotal(cur: Assoc<string, StatusInfo>)
    ensures CountStatus(cur, "Divert") + CountStatus(cur, "Bypass") <= |cur|
  {
    if cur != [] {
      DivertBypassWithinTotal(cur[..|cur| - 1]);
      assert "Divert"[0] != "Bypass"[0];
    }
  }

  datatype UpdateResult = UpdateResult(
    emailsProcessed: nat,
    hydrophonesWithStatus: nat,
    currentDivertCount: nat,
    currentBypassCount: nat)

  datatype Summary = Summary(
    totalMonitored: nat,
    currentlyDiverted: nat,
    currentlyBypass: nat,
    eventsProcessed: nat)

  // ---------------------------------------------------------------------
  // Events and periods per hydrophone

  function EventsOf(acc: Assoc<string, seq<Event>>, code: string): seq<Event> {
    match Lookup(acc, code)
    case None => []
    case Some(evs) => evs
  }

  /** Appends one event per `(code, status)` pair to that code's list. */
  function AddEvents(acc: Assoc<string, seq<Event>>, pairs: seq<(string, string)>,
                     ts: int, system: Option<string>): (r: Assoc<string, seq<Event>>)
    requires KeysUnique(acc)
    ensures KeysUnique(r)
  {
    if pairs == [] then acc
    else
      var a := AddEvents(acc, pairs[..|pairs| - 1], ts, system);
      var p := pairs[|pairs| - 1];
      Put(a, p.0, EventsOf(a, p.0) + [Event(ts, p.1, system)])
  }

  /** Grouping the events of the dated emails by hydrophone, in list order. */
  function LocationEvents(table: Table, es: seq<ParsedEmail>): (r: Assoc<string, seq<Event>>)
    ensures KeysUnique(r)
  {
    if es == [] then []
    else
      var e := es[|es| - 1];
      var acc := LocationEvents(table, es[..|es| - 1]);
      if e.timestamp.None? then acc
      else AddEvents(acc, HydrophoneStatus(table, e.locations), e.timestamp.value, e.system)
  }

  /** One hydrophone's events, email by email: every dated email naming it
      contributes its status. */
  function EventsFor(table: Table, es: seq<ParsedEmail>, code: string): (evs: seq<Event>)
    ensures |evs| <= |es|
  {
    if es == [] then []
    else
      var e := es[|es| - 1];
      EventsFor(table, es[..|es| - 1], code)
      + (if e.timestamp.Some? && Names(table, e, code)
         then [Event(e.timestamp.value, InfoFrom(table, e, code).status, e.system)] else [])
  }

  lemma UniqueLast(pairs: seq<(string, string)>)
    requires pairs != [] && KeysUnique(pairs)
    ensures KeysUnique(pairs[..|pairs| - 1])
    ensures !HasKey(pairs[..|pairs| - 1], pairs[|pairs| - 1].0)
  {
    var n := |pairs| - 1;
    assert forall i :: 0 <= i < n ==> pairs[..n][i] == pairs[i];
  }

  lemma {:induction false} AddEventsLookup(acc: Assoc<string, seq<Event>>, pairs: seq<(string, string)>,
                                           ts: int, system: Option<string>, code: string)
    requires KeysUnique(acc) && KeysUnique(pairs)
    ensures EventsOf(AddEvents(acc, pairs, ts, system), code) ==
              EventsOf(acc, code) + (if HasKey(pairs, code) then [Event(ts, Lookup(pairs, code).value, system)] else [])
  {
    if pairs != [] {
      var n := |pairs| - 1;
      var init := pairs[..n];
      var p := pairs[n];
      UniqueLast(pairs);
      AddEventsLookup(acc, init, ts, system, code);
      var a := AddEvents(acc, init, ts, system);
      var v := EventsOf(a, p.0) + [Event(ts, p.1, system)];
      assert AddEvents(acc, pairs, ts, system) == Put(a, p.0, v);
      PutEvents(a, p.0, v, code);
      LookupLast(pairs, code);
      if code == p.0 {
        assert !HasKey(init, code);
        assert EventsOf(a, code) == EventsOf(acc, code);
        assert Lookup(pairs, code) == Some(p.1);
      } else {
        assert Lookup(pairs, code) == Lookup(init, code);
        assert HasKey(pairs, code) <==> HasKey(init, code);
      }
    }
  }

  /** Adding lists exactly the hydrophones already listed or paired. */
  lemma {:induction false} AddEventsKeys(acc: Assoc<string, seq<Event>>, pairs: seq<(string, string)>,
                                         ts: int, system: Option<string>, code: string)
    requires KeysUnique(acc)
    ensures HasKey(AddEvents(acc, pairs, ts, system), code) <==> HasKey(acc, code) || HasKey(pairs, code)
  {
    if pairs != [] {
      var n := |pairs| - 1;
      AddEventsKeys(acc, pairs[..n], ts, system, code);
      AddEventsKeyStep(acc, pairs, ts, system, code);
      HasKeyLast(pairs, code);
    }
  }

  lemma AddEventsKeyStep(acc: Assoc<string, seq<Event>>, pairs: seq<(string, string)>,
                         ts: int, system: Option<string>, code: string)
    requires KeysUnique(acc) && pairs != []
    ensures var n := |pairs| - 1;
            HasKey(AddEvents(acc, pairs, ts, system), code) <==>
              HasKey(AddEvents(acc, pairs[..n], ts, system), code) || pairs[n].0 == code
  {
    var n := |pairs| - 1;
    var a := AddEvents(acc, pairs[..n], ts, system);
    var p := pairs[n];
    PutEvents(a, p.0, EventsOf(a, p.0) + [Event(ts, p.1, system)], code);
  }

  /** One hydrophone's list replaced. */
  lemma PutEvents(a: Assoc<string, seq<Event>>, k: string, v: seq<Event>, code: string)
    requires KeysUnique(a)
    ensures EventsOf(Put(a, k, v), code) == if code == k then v else EventsOf(a, code)
    ensures HasKey(Put(a, k, v), code) <==> HasKey(a, code) || code == k
  {
  }

  /** Grouping gives each hydrophone exactly its own events in list order,
      and a hydrophone is grouped exactly when it has an event. */
  lemma {:induction false} LocationEventsLookup(table: Table, es: seq<ParsedEmail>, code: string)
    ensures EventsOf(LocationEvents(table, es), code) == EventsFor(table, es, code)
    ensures HasKey(LocationEvents(table, es), code) <==> EventsFor(table, es, code) != []
  {
    if es != [] {
      var n := |es| - 1;
      var e := es[n];
      LocationEventsLookup(table, es[..n], code);
      if e.timestamp.Some? {
        AddEventsLookup(LocationEvents(table, es[..n]), HydrophoneStatus(table, e.locations),
                        e.timestamp.value, e.system, code);
        AddEventsKeys(LocationEvents(table, es[..n]), HydrophoneStatus(table, e.locations),
                      e.timestamp.value, e.system, code);
      }
    }
  }

  function EventTime(ev: Event): int {
    ev.timestamp
  }

  /** One hydrophone's events sorted by time (stably), then folded. */
  function PeriodsForEvents(evs: seq<Event>): seq<Period> {
    BuildPeriods(SortBy(evs, EventTime))
  }

  /** Each hydrophone's periods, in the order the hydrophones were first met. */
  function PeriodsFromEvents(le: Assoc<string, seq<Event>>): Assoc<string, seq<Period>> {
    MapFilter(le, PeriodsForEvents, (ps: seq<Period>) => true)
  }

  /** `_calculate_divert_periods`. */
  function CalculatePeriods(table: Table, es: seq<ParsedEmail>): Assoc<string, seq<Period>> {
    PeriodsFromEvents(LocationEvents(table, es))
  }

  function PeriodsOf(dp: Assoc<string, seq<Period>>, code: string): seq<Period> {
    match Lookup(dp, code)
    case None => []
    case Some(ps) => ps
  }

  /** The periods kept for a hydrophone are its own events, sorted by time
      and folded; there are periods for it exactly when it has events. */
  lemma CalculatePeriodsLookup(table: Table, es: seq<ParsedEmail>, code: string)
    ensures KeysUnique(CalculatePeriods(table, es))
    ensures PeriodsOf(CalculatePeriods(table, es), code) == PeriodsForEvents(EventsFor(table, es, code))
    ensures HasKey(CalculatePeriods(table, es), code) <==> EventsFor(table, es, code) != []
  {
    MapFilterLookup(LocationEvents(table, es), PeriodsForEvents, (ps: seq<Period>) => true, code);
    LocationEventsLookup(table, es, code);
  }

  /** `sorted(events, key=time)`: in time order, a permutation of the
      events, and events with the same time stay in the order they came. */
  function SortedEvents(evs: seq<Event>): (s: seq<Event>)
    ensures SortedByTime(s)
    ensures |s| == |evs|
    ensures multiset(s) == multiset(evs)
    ensures forall t :: WithKey(s, EventTime, t) == WithKey(evs, EventTime, t)
  {
    var s := SortBy(evs, EventTime);
    assert forall i, j :: 0 <= i < j < |s| ==> EventTime(s[i]) <= EventTime(s[j]);
    assert forall t :: WithKey(s, EventTime, t) == WithKey(evs, EventTime, t) by {
      forall t ensures WithKey(s, EventTime, t) == WithKey(evs, EventTime, t) {
        SortByStable(evs, EventTime, t);
      }
    }
    s
  }

  /** A hydrophone's periods are contiguous and in time order, and there
      are some exactly when it has events. */
  lemma PeriodsForEventsWellFormed(evs: seq<Event>)
    ensures Contiguous(PeriodsForEvents(evs))
    ensures Ordered(PeriodsForEvents(evs))
    ensures PeriodsForEvents(evs) == [] <==> evs == []
  {
    var s := SortedEvents(evs);
    BuildPeriodsShape(s);
    SortedEventsOrderedPeriods(s);
  }

  // ---------------------------------------------------------------------
  // Every hydrophone's periods in a window

  /** `get_all_divert_periods`: each hydrophone's periods in the window,
      hydrophones with none left out. */
  function SelectAll(dp: Assoc<string, seq<Period>>, startDate: Option<int>, endDate: Option<int>, now: int): Assoc<string, seq<Period>> {
    MapFilter(dp, (ps: seq<Period>) => SelectPeriods(ps, startDate, endDate, now), (ps: seq<Period>) => ps != [])
  }

  /** Every hydrophone with periods in the window is listed with exactly
      those periods, and no other hydrophone is listed. */
  lemma SelectAllLookup(dp: Assoc<string, seq<Period>>, startDate: Option<int>, endDate: Option<int>, now: int, code: string)
    requires KeysUnique(dp)
    ensures KeysUnique(SelectAll(dp, startDate, endDate, now))
    ensures Lookup(SelectAll(dp, startDate, endDate, now), code) ==
              var ps := SelectPeriods(PeriodsOf(dp, code), startDate, endDate, now);
              if ps != [] then Some(ps) else None
  {
    MapFilterLookup(dp, (ps: seq<Period>) => SelectPeriods(ps, startDate, endDate, now), (ps: seq<Period>) => ps != [], code);
    if !HasKey(dp, code) {
      assert FilterPeriods([], startDate, endDate, now) == [];
    }
  }
}
