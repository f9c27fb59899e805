# Hydrophone dashboard: a Dafny model of the monitoring core

The hydrophone dashboard checks whether each hydrophone of the Ocean
Networks Canada observatory is delivering its data files. It also reads
the "divert" emails that announce when a location's signal is switched
away from the archive (Divert) or back to it (Bypass). It uses those
switches to explain gaps in the data before it raises an alarm.

This project models the deterministic core of that system in Dafny and
proves properties of the model. Each source file is modelled in its own
form. Lookups and parsing are functions. Loops that fill dictionaries
and lists are methods with loop invariants, each proved equal to a
specification function. Objects whose fields are rebuilt in place are
classes.

| Dafny file | module | models |
|---|---|---|
| text.dfy | `Text` | Python string and list built-ins: `strip`, `split`, `upper`/`lower`, `in`, stable `sorted` |
| dict.dfy | `Dict` | Python dictionaries as insertion-ordered association lists (assignment, lookup, later writes win) |
| location_mappings.dfy | `LocationMappings` | `config/location_mappings.py`: the email-name to hydrophone-code table, the system sets and the validation report |
| subject.dfy | `Subject` | the `YYYY_MM_DD HH:MM` timestamp and system name of a divert email subject, timestamps as seconds |
| divert_email.dfy | `DivertEmail` | `parse_divert_email` and `map_locations_to_hydrophones` of the current Gmail parser |
| divert_status.dfy | `DivertStatus` | newest-status resolution and per-hydrophone event grouping of the current parser |
| divert_periods.dfy | `DivertPeriods` | rebuilding contiguous Divert/Bypass periods from time-sorted events, the window filter and the clipped statistics |
| divert_parser.dfy | `DivertParser` | the class `GmailDivertParser` with its status, history and period fields |
| legacy_email.dfy | `LegacyEmail` | the legacy line-anchored email parser |
| legacy_parser.dfy | `LegacyParser` | the legacy class `GmailDivertParser`: last-write status, period tracking and unclipped statistics |
| coverage.dfy | `Coverage` | the file-count part of `check_data_availability`: dates from file names, per-type baselines, daily coverage, poor and missing days |
| hydrophone.dfy | `Hydrophone` | expected data types, the status waterfall, colours and icons, and the status-count summary |
| location_discovery.dfy | `LocationDiscovery` | `extract_name_from_citation` and the grouping and naming in `list_hydrophone_locations` |
| auto_discover.dfy | `AutoDiscover` | keyword categories and naming clues of the automatic mapping generator |
| mapping_code.dfy | `MappingCode` | the `LOCATION_MAPPING` text the automatic generator writes |
| setup_mapping.dfy | `SetupMapping` | the cross-checks and suggestions of the mapping set-up script |
| check_odp.dfy | `CheckOdp` | the active-deployment filter and ODP keyword triage of the ODP checker |

Conventions:

- Clock reads (`datetime.now()`) become `now` and `today` parameters.
- Timestamps are whole seconds and dates are day numbers.
- Results of the ONC API, the database and Gmail are input sequences.
- Percentages are exact `real` values. The 30% coverage threshold is an
  exact integer comparison (`10 * actual >= 3 * expected`).
- The model follows the code where the code and its comments differ.
  The expected files per day use the upper median
  (`sorted(counts)[len // 2]`, Hydrophone.py:226-227), not the average of
  the two middle counts. A bracketed ODP entry of the generated mapping always carries
  the "Need to identify" comment, because the loop before its `else`
  never breaks.

## Model

| member | source | states |
|---|---|---|
| LocationMappings.Get | src/hydrophonedashboard/config/location_mappings.py:124 | `dict.get(name, [])` over a table: a name the table does not list gets `[]`; with distinct keys, a listed name gets exactly its entry's codes |
| LocationMappings.GetHydrophoneCodes | src/hydrophonedashboard/config/location_mappings.py:114-124 | with the shipped table: `[]` for a name it does not list, otherwise the codes of that name's entry |
| LocationMappings.SectionKeysDistinct | src/hydrophonedashboard/config/location_mappings.py:20-68 | no name repeats inside any of the six sections of the table literal |
| LocationMappings.EarlySectionKeysDisjoint | src/hydrophonedashboard/config/location_mappings.py:20-47 | the SoG, Saanich, bracketed NC-DDS and ODP sections share no name |
| LocationMappings.FallbackKeysDisjoint | src/hydrophonedashboard/config/location_mappings.py:20-55 | the unbracketed NC-DDS names appear in no earlier section |
| LocationMappings.AdditionalKeysDisjoint | src/hydrophonedashboard/config/location_mappings.py:20-67 | the additional locations appear in no earlier section |
| LocationMappings.ShippedKeysDistinct | src/hydrophonedashboard/config/location_mappings.py:20-68 | the table literal lists no name twice, so the dict keeps all 24 entries in order |
| LocationMappings.GetSystemForLocation | src/hydrophonedashboard/config/location_mappings.py:95-112 | each of the four answers holds exactly when its set is the first, in the order SoG, NC-DDS, Saanich, to hold the name; `Unknown` when none does |
| LocationMappings.MappedNames | src/hydrophonedashboard/config/location_mappings.py:145 | at most one name per table entry |
| LocationMappings.MappedNamesMembers | src/hydrophonedashboard/config/location_mappings.py:138-145 | a name is listed exactly when some entry of that name has a non-empty code list |
| LocationMappings.UnmappedNames | src/hydrophonedashboard/config/location_mappings.py:154 | at most one name per table entry |
| LocationMappings.UnmappedNamesMembers | src/hydrophonedashboard/config/location_mappings.py:147-154 | a name is listed exactly when some entry of that name has an empty code list |
| LocationMappings.MappedUnmappedPartition | src/hydrophonedashboard/config/location_mappings.py:163-165 | mapped plus unmapped names make up the whole table |
| LocationMappings.ShippedUnmapped | src/hydrophonedashboard/config/location_mappings.py:39-54 | with the shipped table the unmapped names are exactly `[4] ODP 889` and `ODP 889`, and the other 22 names are mapped |
| LocationMappings.AllCodesMembers | src/hydrophonedashboard/config/location_mappings.py:168-170 | a code is in the extended list exactly when some entry lists it |
| LocationMappings.ElementsBound | src/hydrophonedashboard/config/location_mappings.py:172-173 | the set of codes is no larger than the list, so the duplicate count is never negative |
| LocationMappings.ElementsBoundStrict | src/hydrophonedashboard/config/location_mappings.py:172-173 | a code listed at two positions makes the set strictly smaller than the list |
| LocationMappings.Validate | src/hydrophonedashboard/config/location_mappings.py:156-183 | mapped + unmapped == total == table size; completeness lies in [0, 1] and is 0 for an empty table; duplicates >= 0 and duplicates + unique codes == all listed codes |
| LocationMappings.Ratio | src/hydrophonedashboard/config/location_mappings.py:179 | the completeness ratio lies in [0, 1], is 0 for an empty table and otherwise times the total gives the mapped count |
| LocationMappings.ShippedHasDuplicates | src/hydrophonedashboard/config/location_mappings.py:25-52 | the shipped table has duplicate assignments: the CBCH codes sit under `SoG_Delta`, `[2] ODP 1027` and `ODP 1027` |
| Subject.DateTimeMinEarliest | src/hydrophonedashboard/divert/gmail_parser.py:314 | `datetime.min` is 0001-01-01 00:00, and no valid date-time is earlier, so an email without a time sorts as the oldest |
| Subject.ToSecondsMonotone | src/hydrophonedashboard/divert/gmail_parser.py:314-331 | the seconds encoding keeps chronological order, so comparing seconds compares the date-times |
| Subject.SpaceRun | src/hydrophonedashboard/divert/gmail_parser.py:203 | the `\s+` run at a position: all blanks, ended by a non-blank or by the end |
| Subject.FirstStamp | src/hydrophonedashboard/divert/gmail_parser.py:203 | `re.search`: the leftmost position at or after the start where the time pattern matches, and none when it matches nowhere |
| Subject.ParseTimestamp | src/hydrophonedashboard/divert/gmail_parser.py:203-209 | a time is read exactly when the leftmost pattern match spells a valid date-time, and it is that date-time; an invalid match gives no time |
| Subject.NumberPad2 | src/hydrophonedashboard/divert/gmail_parser.py:203 | two written digits read back as the number written |
| Subject.NumberPad4 | src/hydrophonedashboard/divert/gmail_parser.py:203 | four written digits read back as the number written |
| Subject.StampAtFormatted | src/hydrophonedashboard/divert/gmail_parser.py:203-207 | a written `YYYY_MM_DD HH:MM` is a match of the pattern that spells that date-time |
| Subject.ParseFormattedStamp | src/hydrophonedashboard/divert/gmail_parser.py:203-207 | round trip: a subject holding a written date-time, with no digit before it, reads back as exactly that time |
| Subject.ExtractSystem | src/hydrophonedashboard/divert/gmail_parser.py:211-217 | each system is chosen exactly when it is the first of `SoG DDS`, `NC-DDS`, `Saanich DDS` the subject contains; none when it contains none |
| DivertEmail.FirstSeparator | src/hydrophonedashboard/divert/gmail_parser.py:233-237 | the index of the first separator line: no line before it is a separator, and the line there is one (the end when there is none) |
| DivertEmail.CollectLineupLines | src/hydrophonedashboard/divert/gmail_parser.py:224-237 | the lines kept are exactly those after the header line, up to the first line longer than 20 characters with more than 10 `_` or `-` |
| DivertEmail.Run | src/hydrophonedashboard/divert/gmail_parser.py:247-248 | the character run at a position: every character of it qualifies and the next one does not |
| DivertEmail.StatusTail | src/hydrophonedashboard/divert/gmail_parser.py:247-248 | a `:\s*(Bypass\|Divert)` tail, when present, ends inside the text and carries a status word |
| DivertEmail.MatchAt | src/hydrophonedashboard/divert/gmail_parser.py:247-248 | a match starting at a position ends after it and carries `Bypass` or `Divert` in any letter case |
| DivertEmail.Matches | src/hydrophonedashboard/divert/gmail_parser.py:251-253 | every pair `re.finditer` yields has a status word |
| DivertEmail.ParseEmail | src/hydrophonedashboard/divert/gmail_parser.py:194-263 | the parsed locations have distinct names, as a dict's keys do |
| DivertEmail.ParseEmailContents | src/hydrophonedashboard/divert/gmail_parser.py:194-263 | the parsed email holds the subject's time and system; without `New Switch Line-Up:` it has no locations; otherwise each name maps to the status of the last match naming it, the first pattern's matches before the second's |
| DivertEmail.ParsedStatusesAreStatusWords | src/hydrophonedashboard/divert/gmail_parser.py:247-256 | every stored status is `Bypass` or `Divert` up to letter case |
| DivertEmail.StoreMatches | src/hydrophonedashboard/divert/gmail_parser.py:253-256 | the matches are assigned into the dict one after another, later ones overwriting |
| DivertEmail.ParseDivertEmail | src/hydrophonedashboard/divert/gmail_parser.py:182-263 | the step-by-step parse computes exactly `ParseEmail` of the subject and body |
| DivertEmail.CodePairs | src/hydrophonedashboard/divert/gmail_parser.py:281-282 | one `(code, status)` pair per listed code, in list order |
| DivertEmail.HydrophoneStatus | src/hydrophonedashboard/divert/gmail_parser.py:275-284 | the hydrophone statuses have distinct codes |
| DivertEmail.LastStatusFor | src/hydrophonedashboard/divert/gmail_parser.py:277-282 | a code has no status exactly when no listed name's table entry includes it |
| DivertEmail.LastValueCodePairs | src/hydrophonedashboard/divert/gmail_parser.py:281-282 | within one name, a code gets that name's status exactly when the name's list holds it |
| DivertEmail.HydrophoneStatusLookup | src/hydrophonedashboard/divert/gmail_parser.py:275-284 | each code ends with the status of the last listed name whose codes include it; names the table lacks contribute nothing |
| DivertEmail.MapLocationsToHydrophones | src/hydrophonedashboard/divert/gmail_parser.py:265-284 | the loops compute exactly `HydrophoneStatus` of the table and the locations |
| DivertEmail.AssignStatus | src/hydrophonedashboard/divert/gmail_parser.py:280-281 | the inner loop assigns every code of one name that name's status, a later assignment of a code replacing an earlier one |
| DivertEmail.ShippedExampleCodes | src/hydrophonedashboard/config/location_mappings.py:24-52 | the shipped codes of `ODP 1027`, `ODP 1364A` and `SoG_East` |
| DivertEmail.ShippedMappingExample | scripts/test_mappings.py:52-58 | `ODP 1027`, `ODP 1364A` and `SoG_East` together map to 12 hydrophones, whatever their statuses |
| DivertStatus.ParseMessagesMembers | src/hydrophonedashboard/divert/gmail_parser.py:302-311 | an email is kept exactly when it parses a message whose subject is non-empty and names `[Divert]` or `DDS` and it names at least one location; never more emails than messages |
| DivertStatus.NewestFirst | src/hydrophonedashboard/divert/gmail_parser.py:313-314 | the kept emails sorted newest first, emails without a time as `datetime.min`, as a permutation of the input in which emails with the same time keep their arrival order |
| DivertStatus.ResolvePairs | src/hydrophonedashboard/divert/gmail_parser.py:328-338 | the current statuses keep distinct codes |
| DivertStatus.ResolveAll | src/hydrophonedashboard/divert/gmail_parser.py:317-338 | the current statuses keep distinct codes across all emails |
| DivertStatus.FirstStatus | src/hydrophonedashboard/divert/gmail_parser.py:320-338 | a code has no status exactly when no email of the list names it |
| DivertStatus.FirstStatusFirst | src/hydrophonedashboard/divert/gmail_parser.py:320-338 | the status found is the one the first email naming the code gives it |
| DivertStatus.ResolvePairsKeep | src/hydrophonedashboard/divert/gmail_parser.py:330-331 | a recorded status survives an email whose time is missing, not later, or compared with a missing recorded time |
| DivertStatus.ResolvePairsFresh | src/hydrophonedashboard/divert/gmail_parser.py:330-338 | a code without a status takes the status, time and system of the email naming it |
| DivertStatus.ResolveStep | src/hydrophonedashboard/divert/gmail_parser.py:328-338 | one email either keeps the recorded status or, for a code without one, records the email's |
| DivertStatus.FirstStatusStep | src/hydrophonedashboard/divert/gmail_parser.py:320-338 | one more email changes the first naming status only for a code no earlier email named |
| DivertStatus.FirstStatusNotNewer | src/hydrophonedashboard/divert/gmail_parser.py:314-331 | in newest-first order a later email is never strictly newer than the one that recorded a status |
| DivertStatus.ResolveAllFirst | src/hydrophonedashboard/divert/gmail_parser.py:314-338 | newest first, each code's current status is the one the first email naming it gives |
| DivertStatus.NewestStatusWins | src/hydrophonedashboard/divert/gmail_parser.py:314-338 | a code has a status exactly when some kept email names it; the status comes from an email naming it, and no email naming it has a later sort key |
| DivertStatus.CountStatus | src/hydrophonedashboard/divert/gmail_parser.py:349-350 | the number of hydrophones in one status is at most the number with a status |
| DivertStatus.DivertBypassWithinTotal | src/hydrophonedashboard/divert/gmail_parser.py:385-387 | diverted plus bypassed hydrophones never exceed those monitored |
| DivertStatus.AddEvents | src/hydrophonedashboard/divert/gmail_parser.py:409-417 | the event lists keep distinct codes |
| DivertStatus.LocationEvents | src/hydrophonedashboard/divert/gmail_parser.py:400-417 | the grouped event lists keep distinct codes |
| DivertStatus.EventsFor | src/hydrophonedashboard/divert/gmail_parser.py:402-417 | at most one event per email for a hydrophone |
| DivertStatus.AddEventsLookup | src/hydrophonedashboard/divert/gmail_parser.py:409-417 | one email appends exactly one event, with its time, status and system, to each code it maps and leaves other lists as they were |
| DivertStatus.AddEventsKeys | src/hydrophonedashboard/divert/gmail_parser.py:410-411 | after one email the listed codes are those listed before and those it maps |
| DivertStatus.PutEvents | src/hydrophonedashboard/divert/gmail_parser.py:411-413 | replacing one code's list leaves every other code's list alone |
| DivertStatus.LocationEventsLookup | src/hydrophonedashboard/divert/gmail_parser.py:400-417 | grouping gives each hydrophone exactly the events of the dated emails naming it, in list order, and lists it exactly when there is one |
| DivertStatus.CalculatePeriodsLookup | src/hydrophonedashboard/divert/gmail_parser.py:397-457 | each hydrophone's periods are those its own events, stably sorted by time, fold into; a hydrophone has a list exactly when it has events |
| DivertStatus.SortedEvents | src/hydrophonedashboard/divert/gmail_parser.py:420-421 | a hydrophone's events come out in time order, as a permutation of the input in which events with the same time keep their arrival order |
| Text.SortByStable | src/hydrophonedashboard/divert/gmail_parser.py:420-421 | the sort used for every `sort`/`sorted` by key is stable: for each key, the elements carrying it come out in the order they went in |
| DivertStatus.PeriodsForEventsWellFormed | src/hydrophonedashboard/divert/gmail_parser.py:420-457 | each hydrophone's periods are contiguous and in time order, and there are some exactly when it has events |
| DivertStatus.SelectAllLookup | src/hydrophonedashboard/divert/gmail_parser.py:544-562 | a hydrophone is listed exactly when its window filter keeps some period, and then with exactly those periods |
| DivertPeriods.FlushStep | src/hydrophonedashboard/divert/gmail_parser.py:430-455 | once a period is open, one more event either leaves the periods as they were or closes the open one at the event's time and opens one with the event's status |
| DivertPeriods.FoldEventsCurrent | src/hydrophonedashboard/divert/gmail_parser.py:428-455 | a period is in progress exactly when there were events; it is open, the first period starts with the first event, and one period is closed per status change |
| DivertPeriods.FoldEventsContiguous | src/hydrophonedashboard/divert/gmail_parser.py:430-455 | after every event the periods are contiguous: each ends where the next starts, neighbours differ in status, and only the last is open |
| DivertPeriods.BuildPeriodsShape | src/hydrophonedashboard/divert/gmail_parser.py:426-457 | a hydrophone with events gets at least one period and none without; periods are contiguous with only the last open; there is one more period than status changes; the first starts at the first event with its status and the last has the last event's status |
| DivertPeriods.SortedPrefix | src/hydrophonedashboard/divert/gmail_parser.py:420-421 | a prefix of time-sorted events is time-sorted |
| DivertPeriods.FoldEventsSorted | src/hydrophonedashboard/divert/gmail_parser.py:420-455 | with events in time order, period starts never decrease and none is later than the last event |
| DivertPeriods.SortedEventsOrderedPeriods | src/hydrophonedashboard/divert/gmail_parser.py:420-457 | events in time order give periods in time order: each but the last is closed and ends no earlier than it starts and no later than the next one starts |
| DivertPeriods.BuildPeriodsExample | src/hydrophonedashboard/divert/gmail_parser.py:430-455 | Bypass, Divert, Divert, Bypass give three periods: the repeated Divert opens none and the last period is open |
| DivertPeriods.FilterPeriods | src/hydrophonedashboard/divert/gmail_parser.py:473-486 | the filter keeps no more periods than it is given |
| DivertPeriods.FilterPeriodsMembers | src/hydrophonedashboard/divert/gmail_parser.py:473-486 | the filter keeps exactly the periods that do not end (an open one ends now) before `start_date` and do not start after `end_date` |
| DivertPeriods.OrderedAppend | src/hydrophonedashboard/divert/gmail_parser.py:473-486 | a period after closed periods that end before it keeps the list in time order |
| DivertPeriods.FilterPeriodsOrdered | src/hydrophonedashboard/divert/gmail_parser.py:473-486 | dropping periods keeps the rest in time order |
| DivertPeriods.ClippedLength | src/hydrophonedashboard/divert/gmail_parser.py:512-519 | the part of a period inside the window is never negative and never longer than the window |
| DivertPeriods.TallyPeriods | src/hydrophonedashboard/divert/gmail_parser.py:504-526 | the summed times are never negative, and the divert and bypass counts together never exceed the number of periods |
| DivertPeriods.ClippedTotal | src/hydrophonedashboard/divert/gmail_parser.py:512-519 | the total clipped length is never negative |
| DivertPeriods.TallyWithinTotal | src/hydrophonedashboard/divert/gmail_parser.py:512-526 | divert plus bypass time never exceeds the total clipped length of all periods |
| DivertPeriods.ClippedTotalBounded | src/hydrophonedashboard/divert/gmail_parser.py:512-519 | periods in time order that all end by a bound clip to no more than the window up to that bound |
| DivertPeriods.LatestEnd | src/hydrophonedashboard/divert/gmail_parser.py:514 | every period ends (an open one now) no later than the latest end |
| DivertPeriods.TallyWithinWindow | src/hydrophonedashboard/divert/gmail_parser.py:504-528 | for periods in time order, divert plus bypass time fits in the analysis window |
| DivertPeriods.Percentage | src/hydrophonedashboard/divert/gmail_parser.py:537-538 | the percentage is never negative, is 0 when the window is empty and at most 100 when the part fits the window |
| DivertPeriods.PercentageSum | src/hydrophonedashboard/divert/gmail_parser.py:537-538 | two parts that together fit the window give percentages adding up to at most 100 |
| DivertPeriods.EarliestStart | src/hydrophonedashboard/divert/gmail_parser.py:509 | `min(p['start'] for p in periods)`: no period starts earlier and some period starts then |
| DivertPeriods.StatisticsOf | src/hydrophonedashboard/divert/gmail_parser.py:490-542 | total analysis time is end minus start; the divert and bypass counts together never exceed the period count, which is the number of periods; both percentages are non-negative |
| DivertPeriods.StatisticsWithinWindow | src/hydrophonedashboard/divert/gmail_parser.py:504-541 | for periods in time order, divert plus bypass time fits in the analysis window and the two percentages add up to at most 100 |
| DivertParser.ApplyStatuses | src/hydrophonedashboard/divert/gmail_parser.py:328-338 | the loop over one email's pairs computes exactly `ResolvePairs`: a code is recorded when it has no status yet or the email is strictly newer |
| DivertParser.AppendEvents | src/hydrophonedashboard/divert/gmail_parser.py:409-417 | the loop over one dated email's pairs appends exactly the events `AddEvents` describes |
| DivertParser.FoldPeriods | src/hydrophonedashboard/divert/gmail_parser.py:427-455 | the `current_period` loop over one hydrophone's sorted events computes exactly `BuildPeriods`, whose shape `DivertPeriods.BuildPeriodsShape` states |
| DivertParser.GmailDivertParser.constructor | src/hydrophonedashboard/divert/gmail_parser.py:30-45 | a new parser uses the shipped location table, has no history, status or periods, and is consistent |
| DivertParser.GmailDivertParser.UpdateDivertStatus | src/hydrophonedashboard/divert/gmail_parser.py:286-351 | the history becomes the kept notifications newest first; the status and the periods are recomputed from it; the returned counts are the emails kept, the hydrophones with a status, and those diverted and bypassed |
| DivertParser.GmailDivertParser.KeepParsed | src/hydrophonedashboard/divert/gmail_parser.py:302-311 | the message loop keeps exactly `ParseMessages` of the fetched messages |
| DivertParser.GmailDivertParser.ResolveSorted | src/hydrophonedashboard/divert/gmail_parser.py:317-338 | the resolution loop over the sorted emails computes exactly `ResolveAll` |
| DivertParser.GmailDivertParser.CalculateDivertPeriods | src/hydrophonedashboard/divert/gmail_parser.py:397-457 | the periods become `CalculatePeriods` of the history, and the history and the status are unchanged |
| DivertParser.GmailDivertParser.PeriodsPerHydrophone | src/hydrophonedashboard/divert/gmail_parser.py:423-457 | the per-hydrophone loop computes exactly each hydrophone's sorted and folded periods |
| DivertParser.GmailDivertParser.GroupEvents | src/hydrophonedashboard/divert/gmail_parser.py:400-421 | the grouping loop computes exactly `LocationEvents` of the history |
| DivertParser.GmailDivertParser.GetLocationDivertInfo | src/hydrophonedashboard/divert/gmail_parser.py:353-363 | for a consistent parser, the status from the newest kept notification naming the hydrophone, none if no notification names it |
| DivertParser.GmailDivertParser.IsLocationDiverted | src/hydrophonedashboard/divert/gmail_parser.py:365-376 | for a consistent parser, true exactly when the newest notification naming the hydrophone says `Divert` |
| DivertParser.GmailDivertParser.GetDivertSummary | src/hydrophonedashboard/divert/gmail_parser.py:378-395 | totals are the hydrophones with a status and the kept notifications, and diverted plus bypassed never exceed the total |
| DivertParser.GmailDivertParser.GetDivertPeriods | src/hydrophonedashboard/divert/gmail_parser.py:459-488 | the hydrophone's periods, or with a bound the overlapping ones; for a consistent parser they are in time order |
| DivertParser.GmailDivertParser.SelectLoop | src/hydrophonedashboard/divert/gmail_parser.py:471-488 | the filtering loop computes exactly `SelectPeriods` |
| DivertParser.GmailDivertParser.CalculatedPeriodsOrdered | src/hydrophonedashboard/divert/gmail_parser.py:420-457 | every hydrophone's stored periods are in time order |
| DivertParser.GmailDivertParser.GetDivertStatistics | src/hydrophonedashboard/divert/gmail_parser.py:490-542 | the statistics of the selected periods; for a consistent parser divert plus bypass time fits in the analysis window and the percentages add up to at most 100 |
| DivertParser.GmailDivertParser.Summarize | src/hydrophonedashboard/divert/gmail_parser.py:509-542 | the window, the totals and the percentages computed are exactly `StatisticsOf` the selected periods |
| DivertParser.GmailDivertParser.TallyLoop | src/hydrophonedashboard/divert/gmail_parser.py:512-526 | the accumulation loop computes exactly `TallyPeriods` |
| DivertParser.GmailDivertParser.GetAllDivertPeriods | src/hydrophonedashboard/divert/gmail_parser.py:544-562 | every hydrophone whose filtered periods are non-empty is listed with them, and no other |
| DivertParser.GmailDivertParser.SelectEach | src/hydrophonedashboard/divert/gmail_parser.py:555-562 | the loop computes exactly `SelectAll` |
| LegacyEmail.LineMatch | legacy/gmail_divert_parser.py:290-301 | the first pattern, on a stripped line, reads a name only together with exactly `Divert` or `Bypass` |
| LegacyEmail.ReadAt | legacy/gmail_divert_parser.py:291 | what the first pattern reads at the first colon always carries a status word |
| LegacyEmail.FirstColon | legacy/gmail_divert_parser.py:291 | `[^:]+` stops at the first colon of the line |
| LegacyEmail.StripKeepsFirst | legacy/gmail_divert_parser.py:263 | stripping a line that starts with a non-blank keeps its first character |
| LegacyEmail.StripNonBlankEnds | legacy/gmail_divert_parser.py:299 | stripping a name with non-blank ends changes nothing |
| LegacyEmail.BlanksThenWord | legacy/gmail_divert_parser.py:291 | the blanks `\s*` allows before the status are skipped |
| LegacyEmail.BracketLineKeepsPrefix | legacy/gmail_divert_parser.py:290-302 | a line the second pattern matches is already read by the first, so the name keeps its `[n]` prefix and the second pattern never decides |
| LegacyEmail.ReadAtStatus | legacy/gmail_divert_parser.py:291 | a status word after the first colon makes the first pattern read the line, name stripped |
| LegacyEmail.BracketColonFree | legacy/gmail_divert_parser.py:292 | a line of the second pattern has no colon before the one that ends its name |
| LegacyEmail.WordLineSameName | legacy/gmail_divert_parser.py:293-302 | a line the third pattern matches is already read by the first with the same name, so the third pattern never decides |
| LegacyEmail.WellFormedLineRead | legacy/gmail_divert_parser.py:290-301 | every line `name: status` with a colon-free name, only blanks after the colon and an exact status word is read, the name stripped |
| LegacyEmail.ClassifyContent | legacy/gmail_divert_parser.py:263-301 | a line that is not the header, a stop line or blank is what the patterns read |
| LegacyEmail.Kinds | legacy/gmail_divert_parser.py:259-263 | one classification per line |
| LegacyEmail.KindAt | legacy/gmail_divert_parser.py:262-263 | each line is stripped before it is classified |
| LegacyEmail.SectionStep | legacy/gmail_divert_parser.py:262-302 | one step of the line loop: the header opens the section, a stop line in the section ends the scan, a blank line is skipped, a read line is recorded |
| LegacyEmail.ParseEmail | legacy/gmail_divert_parser.py:231-303 | the recorded locations have distinct names, as a dict's keys do |
| LegacyEmail.PairsFromWholeLines | legacy/gmail_divert_parser.py:296-302 | every recorded pair is what the pattern reads from one whole line |
| LegacyEmail.ParseEmailContents | legacy/gmail_divert_parser.py:239-303 | the subject's time and system are read exactly as by the current parser; without `New Switch Line-Up:` there are no locations; otherwise each name has the status of its last recorded line |
| LegacyEmail.ParseEmailLocationFromLine | legacy/gmail_divert_parser.py:262-302 | every recorded status is exactly `Divert` or `Bypass` and comes from one whole body line that reads as that name and status |
| LegacyEmail.StopLineEndsSection | legacy/gmail_divert_parser.py:269-277 | once the section is open, nothing from a stop line on is recorded |
| LegacyEmail.LinesBeforeHeaderIgnored | legacy/gmail_divert_parser.py:262-269 | lines before the first header line are ignored, stop lines included |
| LegacyEmail.ScanLines | legacy/gmail_divert_parser.py:258-302 | the line loop with its `in_lineup_section` flag records exactly `SectionPairs` of the classified lines |
| LegacyEmail.ScanStep | legacy/gmail_divert_parser.py:262-302 | one line of the loop that does not end it records what `SectionPairs` records for it |
| LegacyEmail.ParseDivertEmail | legacy/gmail_divert_parser.py:219-303 | the step-by-step parse computes exactly `ParseEmail` of the subject and body |
| LegacyEmail.MapLocationsToHydrophones | legacy/gmail_divert_parser.py:305-325 | the legacy mapping gives the same statuses as the current one: unmapped names contribute nothing and each mapped code takes the status of the last name listing it |
| LegacyParser.CollectEventsMembers | legacy/gmail_divert_parser.py:349-367 | the kept events are exactly the messages with a divert subject whose parse has a time and a location, each becoming its own event, and no event names a hydrophone twice |
| LegacyParser.NewestFirst | legacy/gmail_divert_parser.py:371 | the sorted history is newest first, a permutation of the kept events, and events with the same time keep their message order |
| LegacyParser.NewestFirstWellFormed | legacy/gmail_divert_parser.py:371 | sorting keeps every event naming each hydrophone at most once |
| LegacyParser.InfosLast | legacy/gmail_divert_parser.py:378-383 | the records one event writes give a hydrophone the event's status, time and system exactly when the event names it |
| LegacyParser.Replay | legacy/gmail_divert_parser.py:375-383 | replaying the history gives a status table with each hydrophone once |
| LegacyParser.NewestInfo | legacy/gmail_divert_parser.py:377-383 | a hydrophone has a newest record exactly when some event names it |
| LegacyParser.ReplayLookup | legacy/gmail_divert_parser.py:377-383 | replaying oldest to newest leaves each hydrophone with the record of the first (newest) event naming it |
| LegacyParser.NewestStatusWins | legacy/gmail_divert_parser.py:371-383 | for a newest-first history a hydrophone's current record is that of an event naming it with no newer such event, and it has none exactly when no event names it |
| LegacyParser.NewestInfoFirst | legacy/gmail_divert_parser.py:377-383 | the newest record comes from an event naming the hydrophone before which no event names it |
| LegacyParser.WriteInfoStep | legacy/gmail_divert_parser.py:378-383 | writing one more location of an event overwrites that hydrophone's record with the event's status, time and system |
| LegacyParser.WriteInfos | legacy/gmail_divert_parser.py:378-383 | the inner loop writes every hydrophone of one event into the status table |
| LegacyParser.CurrentStatus | legacy/gmail_divert_parser.py:375-385 | the loop over the reversed history computes the replay of the whole history |
| LegacyParser.TrackWrite | legacy/gmail_divert_parser.py:454-485 | one tracked pair keeps the state and period tables free of duplicate hydrophones |
| LegacyParser.TrackPairs | legacy/gmail_divert_parser.py:454-485 | tracking one event's pairs keeps the tables free of duplicate hydrophones |
| LegacyParser.TrackEvents | legacy/gmail_divert_parser.py:453-485 | tracking the sorted events keeps the tables free of duplicate hydrophones |
| LegacyParser.CloseOut | legacy/gmail_divert_parser.py:488-499 | closing the open periods keeps the period table free of duplicate hydrophones |
| LegacyParser.CloseOne | legacy/gmail_divert_parser.py:490-499 | closing one hydrophone's state keeps the period table free of duplicate hydrophones |
| LegacyParser.TimedAllAppend | legacy/gmail_divert_parser.py:471-478 | recording one more period appends its duration-carrying form to the recorded ones |
| LegacyParser.TrackWriteOther | legacy/gmail_divert_parser.py:454-485 | a pair for one hydrophone leaves every other hydrophone's state and periods unchanged |
| LegacyParser.TrackWriteFirst | legacy/gmail_divert_parser.py:457-465 | the first sighting of a hydrophone starts its state and gives it an empty period list, one fold step on |
| LegacyParser.TrackWriteChange | legacy/gmail_divert_parser.py:468-485 | a changed status records the state as a period ending at the event with its duration and starts a new state, one fold step on |
| LegacyParser.TrackWriteCloses | legacy/gmail_divert_parser.py:468-485 | after a change of status the hydrophone's state is the new open period and its list gains the closed previous period with duration end minus start |
| LegacyParser.TrackWriteStep | legacy/gmail_divert_parser.py:454-485 | one pair moves its hydrophone one fold step on (the same status changes nothing) and leaves the others as they were |
| LegacyParser.TrackPairsStep | legacy/gmail_divert_parser.py:454-485 | one event moves each hydrophone it names one fold step on with the status it gives, and no other |
| LegacyParser.TrackEventsFolds | legacy/gmail_divert_parser.py:453-485 | after the event loop every hydrophone's state and recorded periods are the fold of its own events in the order given |
| LegacyParser.CloseOneLookup | legacy/gmail_divert_parser.py:490-499 | closing one state appends it, lasting until now, to that hydrophone's list when it has one and touches no other |
| LegacyParser.OngoingAppend | legacy/gmail_divert_parser.py:489-499 | one more tracked state adds its open period only for its own hydrophone |
| LegacyParser.CloseOutLookup | legacy/gmail_divert_parser.py:488-499 | closing out appends each hydrophone's open state, lasting until now, to its list and lists no hydrophone without one |
| LegacyParser.CodeEventsFrom | legacy/gmail_divert_parser.py:453-454 | every event of a hydrophone carries the time of some event of the history |
| LegacyParser.CodeEventsEmpty | legacy/gmail_divert_parser.py:453-454 | a hydrophone has no events exactly when no event of the history names it |
| LegacyParser.CodeEventsSorted | legacy/gmail_divert_parser.py:448-454 | in a history sorted oldest first, each hydrophone's events are in time order |
| LegacyParser.PermutationWellFormed | legacy/gmail_divert_parser.py:448 | reordering the history keeps events well formed and which hydrophones are named |
| LegacyParser.LegacyPeriodsLookup | legacy/gmail_divert_parser.py:440-499 | a hydrophone's periods are the current parser's periods of its own events in time order, each with its duration (the last lasting until now), and it is listed exactly when it has events |
| LegacyParser.TrackedPeriods | legacy/gmail_divert_parser.py:453-499 | tracking and closing a sorted history gives each hydrophone the timed periods built from its own events |
| LegacyParser.TimedAllAt | legacy/gmail_divert_parser.py:476-497 | each timed period carries its own duration, and dropping the durations gives back the periods |
| LegacyParser.LegacyPeriodsPresent | legacy/gmail_divert_parser.py:457-499 | a hydrophone has periods exactly when some event names it |
| LegacyParser.LegacyPeriodsShape | legacy/gmail_divert_parser.py:440-499 | a hydrophone's periods are non-empty, in time order and contiguous; all but the last are closed with duration end minus start and the last is open with duration now minus start |
| LegacyParser.TimedPeriodsShape | legacy/gmail_divert_parser.py:468-499 | the timed periods of time-ordered events are ordered and contiguous, closed with their length but the last, which lasts until now |
| LegacyParser.TimedShape | legacy/gmail_divert_parser.py:476-497 | timing ordered contiguous periods gives each closed one a non-negative duration equal to its length and the open last one now minus start |
| LegacyParser.WriteState | legacy/gmail_divert_parser.py:457-485 | the body of the inner loop computes one tracking step |
| LegacyParser.TrackLoop | legacy/gmail_divert_parser.py:454-485 | the inner loop tracks every pair of one event |
| LegacyParser.TrackAll | legacy/gmail_divert_parser.py:451-485 | the event loop tracks every event of the sorted history |
| LegacyParser.CloseLoop | legacy/gmail_divert_parser.py:487-499 | the closing loop appends every open state to its hydrophone's list |
| LegacyParser.CalculateLegacyPeriods | legacy/gmail_divert_parser.py:440-499 | `_calculate_divert_periods` computes the per-hydrophone periods of the history at time now |
| LegacyParser.FilterTimed | legacy/gmail_divert_parser.py:519-535 | the overlap filter keeps at most the periods it is given |
| LegacyParser.FilterTimedAgrees | legacy/gmail_divert_parser.py:519-535 | the legacy overlap filter keeps exactly the periods the current parser's filter keeps |
| LegacyParser.SelectTimedAgrees | legacy/gmail_divert_parser.py:513-537 | the legacy period query selects what the current parser's query selects and keeps time order |
| LegacyParser.SelectAllLookup | legacy/gmail_divert_parser.py:607-612 | every hydrophone with periods in the window is listed once with them and no other is |
| LegacyParser.DurationTally | legacy/gmail_divert_parser.py:569-576 | at most one Divert or Bypass count per period |
| LegacyParser.RawPercentage | legacy/gmail_divert_parser.py:579-580 | the percentage is 0 without a positive total, and otherwise at most 100 exactly when the part fits in the total and non-negative exactly when the part is |
| LegacyParser.LegacyStatisticsOf | legacy/gmail_divert_parser.py:551-594 | the statistics count the selected periods, the divert percentage is at most 100 exactly when divert time fits in the timeframe, and both percentages are 0 for an empty timeframe |
| LegacyParser.UnclippedPercentageExceeds | legacy/gmail_divert_parser.py:560-580 | a Divert period 0-10 then a Bypass from 10, queried over [5, 10] at 10, report 200% divert time where the clipped statistics report 100% |
| LegacyParser.UnclippedPeriods | legacy/gmail_divert_parser.py:468-499 | the example's periods are a 10-second Divert and an open Bypass lasting 0 seconds |
| LegacyParser.UnclippedTallies | legacy/gmail_divert_parser.py:519-576 | both periods of the example overlap [5, 10], the whole 10 Divert seconds are added, and clipping adds only 5 |
| LegacyParser.ParsedStatusWords | legacy/gmail_divert_parser.py:290-301 | every status the legacy parse reads is `Divert` or `Bypass` |
| LegacyParser.HydrophoneStatusWords | legacy/gmail_divert_parser.py:315-325 | mapping names to hydrophones keeps only status words as statuses |
| LegacyParser.CollectEventsStatusWords | legacy/gmail_divert_parser.py:349-367 | every status a kept event carries is a status word |
| LegacyParser.InfosWords | legacy/gmail_divert_parser.py:378-383 | the records an event writes carry only status words |
| LegacyParser.ReplayStatusWords | legacy/gmail_divert_parser.py:375-385 | every current status is `Divert` or `Bypass` |
| LegacyParser.CountStatusWords | legacy/gmail_divert_parser.py:427-430 | with only status words, the diverted and bypassed counts add up to all hydrophones |
| LegacyParser.LegacySummary | legacy/gmail_divert_parser.py:420-438 | the summary counts every hydrophone, diverted plus bypass equals the total, and the bypass count is the number of Bypass records when only status words occur |
| LegacyParser.LegacyDivertParser.constructor | legacy/gmail_divert_parser.py:67-82 | a new parser uses the location table (its own copy, identical to the shared one) and has no history, no status and no periods |
| LegacyParser.LegacyDivertParser.UpdateDivertStatus | legacy/gmail_divert_parser.py:327-391 | a refresh keeps the divert events newest first, sets and returns the replayed status, rebuilds the periods at now, and keeps the parser consistent |
| LegacyParser.LegacyDivertParser.KeepEvents | legacy/gmail_divert_parser.py:347-367 | the message loop keeps the event of each divert message in message order |
| LegacyParser.LegacyDivertParser.GetLocationDivertInfo | legacy/gmail_divert_parser.py:393-405 | a hydrophone's record is that of the newest event naming it, or none |
| LegacyParser.LegacyDivertParser.IsLocationDiverted | legacy/gmail_divert_parser.py:407-418 | a hydrophone is diverted exactly when the newest event naming it says `Divert` |
| LegacyParser.LegacyDivertParser.GetDivertSummary | legacy/gmail_divert_parser.py:420-438 | the summary counts the hydrophones with a status and the events kept; the diverted and bypassed counts are the Divert and Bypass records |
| LegacyParser.LegacyDivertParser.GetDivertPeriods | legacy/gmail_divert_parser.py:501-537 | a hydrophone's periods, filtered by overlap when a bound is given, select what the current parser selects and are in time order |
| LegacyParser.LegacyDivertParser.StoredPeriodsOrdered | legacy/gmail_divert_parser.py:440-499 | every stored period list is in time order |
| LegacyParser.LegacyDivertParser.SelectLoop | legacy/gmail_divert_parser.py:519-537 | the filtering loop skips periods ending before the start or starting after the end |
| LegacyParser.LegacyDivertParser.GetDivertStatistics | legacy/gmail_divert_parser.py:539-594 | the statistics are those of the selected periods with whole recorded durations against the timeframe |
| LegacyParser.LegacyDivertParser.DurationLoop | legacy/gmail_divert_parser.py:569-576 | the summing loop adds and counts the Divert and Bypass durations |
| LegacyParser.LegacyDivertParser.GetAllDivertPeriods | legacy/gmail_divert_parser.py:596-612 | every hydrophone with periods in the window is listed with exactly its selected periods, and no other |
| LegacyParser.LegacyDivertParser.SelectEach | legacy/gmail_divert_parser.py:607-612 | the loop keeps each hydrophone with a non-empty selection |
| LegacyParser.KeptHistoryWellFormed | legacy/gmail_divert_parser.py:347-372 | the kept history names each hydrophone at most once per event and records only status words |
| LegacyParser.PermutationStatusWords | legacy/gmail_divert_parser.py:371 | reordering the history keeps only status words |
| Coverage.FirstDigitRun | Hydrophone.py:189 | a run found lies at or after the search start and is eight digits |
| Coverage.FirstDigitRunLeftmost | Hydrophone.py:189 | the run found is the leftmost one, and none is found only when there is none |
| Coverage.NameDate | Hydrophone.py:186-194 | a file name gives a day only when it holds an eight-digit run |
| Coverage.NameDateFormatted | Hydrophone.py:188-192 | a name whose first eight-digit run is a valid `YYYYMMDD` gives exactly that day |
| Coverage.NoRunInPrefix | Hydrophone.py:189 | no eight-digit run starts inside a run-free prefix that ends in a non-digit |
| Coverage.ExtensionOf | Hydrophone.py:202-204 | a file has an extension exactly when its name holds a dot |
| Coverage.SplitLast | Hydrophone.py:204 | the piece after the last dot is the last piece of the split |
| Coverage.ExtensionAfterDot | Hydrophone.py:204 | a name ending in `.ext` has extension `ext` in lower case |
| Coverage.DayOf | Hydrophone.py:182-194 | a listed file's day is malformed exactly when it is a record whose `dateFrom` does not parse |
| Coverage.NameDay | Hydrophone.py:185-194 | a day read from a file name is never malformed (an unparsable name is skipped) |
| Coverage.Digests | Hydrophone.py:173-204 | one entry per listed file, each read off its own file |
| Coverage.ScanStep | Hydrophone.py:182-211 | one file stops the scan exactly when its `dateFrom` is malformed |
| Coverage.ScanFilesFails | Hydrophone.py:173-454 | reading the listing fails exactly when some file has a malformed `dateFrom` |
| Coverage.ScanCounts | Hydrophone.py:196-208 | each expected type's count for a day is the number of listed files of that day with that extension |
| Coverage.ScanLast | Hydrophone.py:210-211 | the newest day is the latest day of a counted file, and there is one exactly when some file counts |
| Coverage.CountFiles | Hydrophone.py:169-211 | the counting loop fails exactly when the scan does, and otherwise gives its counts and newest day |
| Coverage.CountFile | Hydrophone.py:196-211 | the loop body for a dated file adds its day and counts its extension when expected |
| Coverage.PositiveCounts | Hydrophone.py:215-219 | at most one positive count per listed day |
| Coverage.UpperMedian | Hydrophone.py:226-227 | the upper median is one of the counts |
| Coverage.Baseline | Hydrophone.py:223-231 | every expectation is at least 4 files per day |
| Coverage.CountWhereAppend | Hydrophone.py:226-227 | counts satisfying a comparison add over concatenation |
| Coverage.CountWhereRemove | Hydrophone.py:226-227 | removing one count removes it from the tally and from the multiset |
| Coverage.CountWherePermutation | Hydrophone.py:226 | sorting does not change how many counts satisfy a comparison |
| Coverage.SortedBelow | Hydrophone.py:226-227 | in the sorted counts at most `h` lie below the entry at `h` |
| Coverage.SortedAtMost | Hydrophone.py:226-227 | in the sorted counts more than `h` are at most the entry at `h` |
| Coverage.AllCounted | Hydrophone.py:226-227 | when every count is at most `m`, all are counted |
| Coverage.UpperMedianRank | Hydrophone.py:226-227 | at most half the counts (rounded down) are below the median and more than that many are at most it |
| Coverage.SortedAroundMedian | Hydrophone.py:226-227 | in sorted counts, entries after `h` are at least and entries before are at most the entry at `h` |
| Coverage.BaselineExample | Hydrophone.py:226-229 | counts 6, 2, 4, 4 give an expectation of 4 files per day |
| Coverage.ExpectedFilesPerDay | Hydrophone.py:215-231 | the loops give every expected type its expectation |
| Coverage.GatherAll | Hydrophone.py:215-219 | the loop over days collects, per type, its positive counts in day order |
| Coverage.GatherDay | Hydrophone.py:217-219 | one day appends each type's positive count to its list |
| Coverage.AdequateIff | Hydrophone.py:236-258 | a type is adequate exactly when its coverage is at least 30%, and coverage is never negative |
| Coverage.PoorDayIff | Hydrophone.py:247-276 | a day is poor exactly when no expected type reaches 30% of its expectation on it |
| Coverage.MissedDays | Hydrophone.py:242-271 | a type is missed on at most the days of the window |
| Coverage.PoorDays | Hydrophone.py:242-276 | at most the days of the window are poor |
| Coverage.CoverageSeries | Hydrophone.py:242-272 | one coverage value per day of the window |
| Coverage.CoverageSeriesAt | Hydrophone.py:243-272 | entry `j` of a coverage series is that type's coverage `j` days ago and is non-negative |
| Coverage.AllPoor | Hydrophone.py:312-335 | when every day of a window is counted poor, no day in it was covered |
| Coverage.ScanWindow | Hydrophone.py:242-276 | the day loop counts each type's missed days, records each type's coverage series and counts the poor days |
| Coverage.ScanDay | Hydrophone.py:243-276 | one day records every type's coverage, counts the types that fall short and tells whether some type was covered |
| Coverage.MissedMoreThan | Hydrophone.py:279-282 | at most the expected types are frequently missing |
| Coverage.MissedMoreThanMembers | Hydrophone.py:279-339 | a type is listed exactly when it is an expected type missed on more than the bound |
| Coverage.FrequentlyMissing | Hydrophone.py:279-282 | the loop lists, in order, the types missed on more than half the window |
| Coverage.SumNonNegative | Hydrophone.py:288 | non-negative coverages sum to a non-negative total |
| Coverage.MeanCoverage | Hydrophone.py:286-291 | a type's average coverage is never negative |
| Coverage.AverageCoverage | Hydrophone.py:285-291 | the loop gives every type the mean of its coverage series (0 for an empty one) |
| Hydrophone.ExpectedDataTypesShape | Hydrophone.py:67-102 | every device expects a non-empty list of distinct known types, and the fallback `fft`, `flac`, `mat` exactly for devices without a table entry |
| Hydrophone.ParseLevelName | Hydrophone.py:459-481 | status names and the six statuses correspond one to one |
| Hydrophone.StatusColorsDistinct | Hydrophone.py:459-469 | the six statuses have six different colours |
| Hydrophone.StatusIconsShared | Hydrophone.py:471-481 | two different statuses share an icon exactly when they are `minor` and `warning` |
| Hydrophone.UnknownStatusLooksLikeError | Hydrophone.py:469-481 | a status string that names none of the six is drawn gray with `?`, like `error` |
| Hydrophone.TotalDeficitBounds | Hydrophone.py:366-370 | with non-negative coverages the summed deficit lies between 0 and 100 per type |
| Hydrophone.AverageDeficitBounds | Hydrophone.py:366-372 | with non-negative coverages the average deficit lies between 0 and 100 |
| Hydrophone.ExplainBounds | Hydrophone.py:359-384 | the explained share is at most the diverted share and the average deficit, and lies between 0 and 100 |
| Hydrophone.TotalCoverageDeficit | Hydrophone.py:366-370 | the loop sums `max(0, 100 - avg)` over the types |
| Hydrophone.DecideDiverted | Hydrophone.py:393-400 | the verdict is `diverted` exactly when the location is currently diverted |
| Hydrophone.DecideCritical | Hydrophone.py:392-435 | `critical` needs three poor recent days, no current diversion and no explanation above 20% |
| Hydrophone.DecideAllClear | Hydrophone.py:392-450 | with no explanation above 20%, no poor recent day and no recently missing type the verdict is `good` |
| Hydrophone.DecideMonotone | Hydrophone.py:402-450 | more poor days, more poor recent days or more recently missing types never make the verdict milder |
| Hydrophone.RecentDivertForgivesOneDay | Hydrophone.py:412-430 | a recent divert share above 15% forgives one poor recent day, and exactly 15% does not |
| Hydrophone.ExpectedAll | Hydrophone.py:221-231 | each expected type gets its positive expectation |
| Hydrophone.MissedAll | Hydrophone.py:239-271 | each type gets its missed-day count over the window |
| Hydrophone.CoverageAll | Hydrophone.py:240-272 | each type gets its coverage series over the window |
| Hydrophone.MeanAll | Hydrophone.py:285-291 | each type gets the mean of its coverage series |
| Hydrophone.Judge | Hydrophone.py:125-450 | an analysed device is never `error`, and is `diverted` exactly when it is currently diverted |
| Hydrophone.Analyse | Hydrophone.py:213-450 | an analysed device is never `error`; its last data date is the newest counted day, and its days since last data count from it or are the window length |
| Hydrophone.AssessError | Hydrophone.py:122-454 | a device is `error` exactly when a listed record has a malformed `dateFrom` |
| Hydrophone.AssessDiverted | Hydrophone.py:125-400 | without an error, a device is `diverted` exactly when the parser's current status for its location is `Divert` |
| Hydrophone.AssessBounds | Hydrophone.py:213-298 | no type is missed on more days than the window, at most the window is poor, every expectation is at least 4, coverages are non-negative, and the frequently missing types are the expected types missed on more than half the days |
| Hydrophone.AssessLastData | Hydrophone.py:210-302 | days since last data count from the newest day of a counted file, which is a counted file's day and no earlier than any other |
| Hydrophone.AssessNoData | Hydrophone.py:300-304 | there is no last data date exactly when no listed file counts, and then the days since last data are the window length |
| Hydrophone.AssessCritical | Hydrophone.py:311-433 | `critical` means none of the last three days had a type reaching 30% |
| Hydrophone.CheckDataAvailability | Hydrophone.py:104-457 | `check_data_availability` computes the assessment of the device's expected types, its listing and the parser's view of its location |
| Hydrophone.MeasureFiles | Hydrophone.py:213-339 | the coverage analysis computes the measures of the counted files |
| Hydrophone.Verdict | Hydrophone.py:345-450 | the divert analysis and the waterfall give the explanation and the level of the decision rules |
| Hydrophone.ExplainWindow | Hydrophone.py:345-390 | the explanation is drawn from the window's divert statistics when the parser is present |
| Hydrophone.Grade | Hydrophone.py:392-450 | the waterfall computes the level of the decision rules, asking the parser for the recent window only when an explanation exceeds 20% |
| Hydrophone.CountStatus | Hydrophone.py:750-753 | a status count is at most the number of devices |
| Hydrophone.Rest | Hydrophone.py:754 | the statuses left over are at most the number of devices |
| Hydrophone.SummaryPartition | Hydrophone.py:750-754 | the five counts add up to the number of devices, and `good` counts every status that is not critical, warning, minor or diverted |
| Hydrophone.Names | Hydrophone.py:750-753 | one `overall_status` string per device, naming its status |
| Hydrophone.ErrorsCountAsGood | Hydrophone.py:750-754 | on the dashboard, devices in `error` are counted as `good` |
| Hydrophone.RestOfNames | Hydrophone.py:754 | the leftover statuses are exactly the `good` and `error` devices |
| LocationDiscovery.LeadAt | src/hydrophonedashboard/utils/location_discovery.py:24 | the lead `\.\s*\d{4}\.` found at a position ends after it and within the text |
| LocationDiscovery.FirstPos | src/hydrophonedashboard/utils/location_discovery.py:24-34 | a position found lies in the searched range |
| LocationDiscovery.FirstPosShape | src/hydrophonedashboard/utils/location_discovery.py:24-34 | the position found is the leftmost where the pattern holds, and none is found only when it holds nowhere in the range |
| LocationDiscovery.GroupEnd | src/hydrophonedashboard/utils/location_discovery.py:24 | the lazy name group ends at or after its start and within the text |
| LocationDiscovery.GroupEndShape | src/hydrophonedashboard/utils/location_discovery.py:24 | the lazy group ends at the first position on its line where the `Deployed` tail matches, and there is no end only when no position on the line has the tail |
| LocationDiscovery.PrimaryAtShape | src/hydrophonedashboard/utils/location_discovery.py:24 | a match of the main pattern has its name group on one line, after the lead, followed by the tail |
| LocationDiscovery.SearchPrimaryNone | src/hydrophonedashboard/utils/location_discovery.py:24-26 | the search finds no match only when no start position has one |
| LocationDiscovery.SearchPrimaryLeftmost | src/hydrophonedashboard/utils/location_discovery.py:24-26 | the match the search finds is the one at the leftmost start that has one |
| LocationDiscovery.LineEnd | src/hydrophonedashboard/utils/location_discovery.py:34 | the line end is on the same line, at a newline or the end of the text |
| LocationDiscovery.SearchFallback | src/hydrophonedashboard/utils/location_discovery.py:34-36 | the fallback's group never spans a newline |
| LocationDiscovery.FirstMatch | src/hydrophonedashboard/utils/location_discovery.py:39-49 | a match found lies at or after the search start and within the text |
| LocationDiscovery.FirstMatchLeftmost | src/hydrophonedashboard/utils/location_discovery.py:39-49 | the match found is the leftmost one, and none is found only when there is none |
| LocationDiscovery.CutAt | src/hydrophonedashboard/utils/location_discovery.py:41-49 | cutting never lengthens the name |
| LocationDiscovery.CutAtPrefix | src/hydrophonedashboard/utils/location_discovery.py:41-49 | what is left after a cut is a prefix of the name |
| LocationDiscovery.PrimaryName | src/hydrophonedashboard/utils/location_discovery.py:24-31 | a name from the main pattern does not end in the punctuation `rstrip` removes |
| LocationDiscovery.FallbackName | src/hydrophonedashboard/utils/location_discovery.py:33-53 | a name from the fallback does not end in that punctuation |
| LocationDiscovery.CleanFallback | src/hydrophonedashboard/utils/location_discovery.py:38-50 | the cleaned fallback name does not end in that punctuation |
| LocationDiscovery.ExtractName | src/hydrophonedashboard/utils/location_discovery.py:18-55 | a name is read only from a non-empty citation and never ends in that punctuation |
| LocationDiscovery.SkipSpacesEmbeds | src/hydrophonedashboard/utils/location_discovery.py:24-49 | a whitespace run ending inside a piece of a text ends at the same place in the text |
| LocationDiscovery.Slices | src/hydrophonedashboard/utils/location_discovery.py:41-45 | a slice of a slice is a slice of the text |
| LocationDiscovery.WordEmbeds | src/hydrophonedashboard/utils/location_discovery.py:43-49 | a word found case-insensitively in a piece is found in the text |
| LocationDiscovery.SpacedWordEmbeds | src/hydrophonedashboard/utils/location_discovery.py:48-49 | a whitespace-led word found in a piece is found in the text at the same place |
| LocationDiscovery.DoiEmbeds | src/hydrophonedashboard/utils/location_discovery.py:43 | a DOI link found in a piece is found in the text |
| LocationDiscovery.DoiRestEmbeds | src/hydrophonedashboard/utils/location_discovery.py:43 | the `://doi.org` part found in a piece is found in the text |
| LocationDiscovery.DateEmbeds | src/hydrophonedashboard/utils/location_discovery.py:39 | a date found in a piece is found in the text |
| LocationDiscovery.HydrophoneDeployedEmbeds | src/hydrophonedashboard/utils/location_discovery.py:48 | `Hydrophone Deployed` found in a piece is found in the text |
| LocationDiscovery.MatchEmbeds | src/hydrophonedashboard/utils/location_discovery.py:39-49 | any clean-up pattern found in a piece is found in the text |
| LocationDiscovery.FreePiece | src/hydrophonedashboard/utils/location_discovery.py:39-50 | a piece of a text free of a pattern is free of it |
| LocationDiscovery.CutFree | src/hydrophonedashboard/utils/location_discovery.py:41-45 | cutting at the leftmost match leaves no match |
| LocationDiscovery.StripFree | src/hydrophonedashboard/utils/location_discovery.py:41-49 | stripping keeps a text free of a pattern |
| LocationDiscovery.CutStripFree | src/hydrophonedashboard/utils/location_discovery.py:48-49 | cutting and stripping keeps a text free of any pattern it was free of |
| LocationDiscovery.FallbackNameClean | src/hydrophonedashboard/utils/location_discovery.py:33-53 | a fallback name is non-empty, not generic, does not end in punctuation and holds no date, no DOI link and no `Deployed` after whitespace |
| LocationDiscovery.CleanFallbackFree | src/hydrophonedashboard/utils/location_discovery.py:38-50 | the cleaned-up group holds no date, no DOI link and no `Deployed` after whitespace |
| LocationDiscovery.TrimsFree | src/hydrophonedashboard/utils/location_discovery.py:39-45 | cutting at a date and then at a DOI link leaves neither |
| LocationDiscovery.TrimFree | src/hydrophonedashboard/utils/location_discovery.py:39-45 | cutting at a pattern when it occurs leaves no match of it |
| LocationDiscovery.TrimKeeps | src/hydrophonedashboard/utils/location_discovery.py:39-45 | cutting keeps a text free of any pattern it was free of |
| LocationDiscovery.CutStripSelfFree | src/hydrophonedashboard/utils/location_discovery.py:48-49 | cutting at a pattern and stripping leaves no match of it |
| LocationDiscovery.ParentCode | src/hydrophonedashboard/utils/location_discovery.py:132-135 | the parent code is the dot-free prefix of the location code, and equals it exactly when the code has no dot |
| LocationDiscovery.JoinHead | src/hydrophonedashboard/utils/location_discovery.py:135 | the first piece of a split starts the text |
| LocationDiscovery.ParentsMembers | src/hydrophonedashboard/utils/location_discovery.py:127-138 | a code is a parent code exactly when it is the parent of a deployment with a location code |
| LocationDiscovery.AtParentMembers | src/hydrophonedashboard/utils/location_discovery.py:127-137 | the deployments grouped under a parent are exactly the located deployments with that parent |
| LocationDiscovery.AtParentNonEmpty | src/hydrophonedashboard/utils/location_discovery.py:137-156 | every parent code found has at least one deployment |
| LocationDiscovery.DeviceCodesMembers | src/hydrophonedashboard/utils/location_discovery.py:185-189 | the device codes are exactly the non-empty codes some deployment names |
| LocationDiscovery.DeviceCodesBound | src/hydrophonedashboard/utils/location_discovery.py:185-191 | there are at most as many device codes as deployments |
| LocationDiscovery.DisplayName | src/hydrophonedashboard/utils/location_discovery.py:154-182 | the display name is the code, the map name or the citation name |
| LocationDiscovery.DisplayNamePrecedence | src/hydrophonedashboard/utils/location_discovery.py:154-182 | a specific map name wins; otherwise a citation name; otherwise a generic map name; otherwise the code, and the name is empty only for an empty code |
| LocationDiscovery.LocationsNone | src/hydrophonedashboard/utils/location_discovery.py:140-142 | there is no location list exactly when no deployment has a location code |
| LocationDiscovery.LocationsCodes | src/hydrophonedashboard/utils/location_discovery.py:144-201 | the entries are strictly ordered by code and their codes are exactly the parent codes of the located deployments |
| LocationDiscovery.ChoiceForCount | src/hydrophonedashboard/utils/location_discovery.py:184-198 | an entry carries its parent code, and its device count is at most its deployments and positive exactly when one names a device |
| LocationDiscovery.LocationsFirstDeployment | src/hydrophonedashboard/utils/location_discovery.py:155-156 | every listed parent has a first deployment for the naming to read |
| LocationDiscovery.ListHydrophoneLocations | src/hydrophonedashboard/utils/location_discovery.py:123-201 | the grouping and naming compute the location list, or nothing when no deployment has a location code |
| LocationDiscovery.BuildChoices | src/hydrophonedashboard/utils/location_discovery.py:153-198 | the naming loop builds one entry per code, in order |
| LocationDiscovery.GroupByParent | src/hydrophonedashboard/utils/location_discovery.py:123-138 | the grouping loop collects each parent's deployments in order and the parent codes as met |
| LocationDiscovery.GroupedStep | src/hydrophonedashboard/utils/location_discovery.py:127-138 | one turn of the grouping loop keeps the grouping exact |
| LocationDiscovery.AtParentStep | src/hydrophonedashboard/utils/location_discovery.py:127-137 | one more deployment extends only its own parent's group |
| LocationDiscovery.AtParentMember | src/hydrophonedashboard/utils/location_discovery.py:137-138 | a parent with deployments is among the parent codes found |
| LocationDiscovery.ParentChoice | src/hydrophonedashboard/utils/location_discovery.py:154-198 | the naming and counting of one parent compute its entry |
| CheckOdp.InfoOf | scripts/check_odp_locations.py:41-54 | a deployment gives an info exactly when it is active and its lookup returned a record; the info carries its code and the first record's name, or `Unknown` |
| CheckOdp.InfosMembers | scripts/check_odp_locations.py:38-57 | the infos are exactly those of the active deployments whose lookup returned a record, at most one per deployment |
| CheckOdp.CandidateOf | scripts/check_odp_locations.py:65-89 | a location is a candidate exactly when its upper-cased name holds a drilling or a region keyword; it is a potential ODP site exactly when a drilling keyword occurs, and carries a note exactly when it is not |
| CheckOdp.CandidatesMembers | scripts/check_odp_locations.py:63-89 | the candidates are exactly the judged candidates of the locations, at most one per location |
| CheckOdp.CheckOdpLocations | scripts/check_odp_locations.py:34-89 | the checker computes the active location infos and then their candidates |
| CheckOdp.CollectInfos | scripts/check_odp_locations.py:38-57 | the deployment loop collects the infos of the active, looked-up deployments in order |
| CheckOdp.PickCandidates | scripts/check_odp_locations.py:63-89 | the location loop picks the candidates in order |
| SetupMapping.SiteMatchAt | scripts/setup_location_mapping.py:24 | a match at a position captures a non-empty code sitting between the site marker and a closing tag |
| SetupMapping.FindAllFromCodes | scripts/setup_location_mapping.py:24-25 | every code `findall` captures is a non-empty run of `[A-Z0-9.]` between the site marker and a closing tag |
| SetupMapping.AllSiteCodesCons | scripts/setup_location_mapping.py:25 | one more captured code keeps every capture a site code |
| SetupMapping.SiteMatchCode | scripts/setup_location_mapping.py:24 | the code a match captures is a site code |
| SetupMapping.ExtractShape | scripts/setup_location_mapping.py:15-35 | the locations are strictly increasing, hold exactly the captured codes, are all site codes, and are empty when the file cannot be read |
| SetupMapping.UnmappedExact | scripts/setup_location_mapping.py:128-130 | a name is unmapped exactly when it was seen in an email and has no table entry |
| SetupMapping.MissingForExact | scripts/setup_location_mapping.py:133-136 | the pairs for one mapped name are exactly its codes that are not actual locations |
| SetupMapping.MissingExact | scripts/setup_location_mapping.py:128-136 | a missing pair is exactly a seen, mapped name with one of its codes that is not an actual location |
| SetupMapping.Remove | scripts/setup_location_mapping.py:157-159 | the cleaned string holds none of the removed characters |
| SetupMapping.SuggestForExact | scripts/setup_location_mapping.py:157-162 | the suggestions for one name are exactly the actual locations similar to it |
| SetupMapping.SuggestionsExact | scripts/setup_location_mapping.py:153-162 | a suggestion is exactly an unmapped name with a similar actual location |
| SetupMapping.KeepActual | scripts/setup_location_mapping.py:182-197 | keeping the actual codes never lengthens the list |
| SetupMapping.KeepActualExact | scripts/setup_location_mapping.py:182-197 | a code is kept exactly when it is in the list and an actual location |
| SetupMapping.EntriesShape | scripts/setup_location_mapping.py:194-199 | every emitted entry is a seen table name with the non-empty list of its codes that are actual locations |
| SetupMapping.SuggestedForExact | scripts/setup_location_mapping.py:205 | the codes suggested for a name are exactly its suggestion pairs |
| SetupMapping.Todos | scripts/setup_location_mapping.py:201-208 | one to-do entry per unmapped name, in order |
| SetupMapping.AnalyseExact | scripts/setup_location_mapping.py:124-208 | the unmapped names, missing pairs, suggestions and to-do entries are exactly what the tool reports |
| SetupMapping.SetupLocationMapping | scripts/setup_location_mapping.py:83-213 | exit code 1 and no analysis when the dashboard shows no location, otherwise exit code 0 and the analysis |
| SetupMapping.CheckMappings | scripts/setup_location_mapping.py:124-136 | the loop over the email names computes the unmapped names and the missing pairs |
| SetupMapping.SuggestCorrections | scripts/setup_location_mapping.py:153-162 | the nested loop computes the suggestions |
| SetupMapping.ValidateKnownPatterns | scripts/setup_location_mapping.py:164-186 | the loop checks each known pattern seen in an email against the actual locations |
| SetupMapping.KeepActualLoop | scripts/setup_location_mapping.py:182-197 | the comprehension keeps the codes that are actual locations |
| SetupMapping.KeptEntries | scripts/setup_location_mapping.py:194-199 | the loop emits the current entries that still apply |
| SetupMapping.TodoEntries | scripts/setup_location_mapping.py:201-208 | the loop emits a to-do entry per unmapped name with its suggestions |
| AutoDiscover.CategoryOf | scripts/auto_discover_divert_mappings.py:94-120 | on the upper-cased name, the first matching keyword group decides, in the order SoG, Saanich, ODP, NC-DDS; a name matching none is uncategorized |
| AutoDiscover.InCategoryExact | scripts/auto_discover_divert_mappings.py:93-120 | a category's list holds exactly the discovered locations whose name falls in that category |
| AutoDiscover.CategoriesPartition | scripts/auto_discover_divert_mappings.py:93-128 | the five lists split the locations: their lengths add up to the number of locations and each location is in its own category's list only |
| AutoDiscover.AnalyzeLocationNames | scripts/auto_discover_divert_mappings.py:80-128 | the loop appending each location to its category's list yields exactly the category lists in discovery order |
| AutoDiscover.BracketAt | scripts/auto_discover_divert_mappings.py:142 | a `[CODE]` group yields a non-empty run of `[A-Z0-9.]` |
| AutoDiscover.BracketAtShape | scripts/auto_discover_divert_mappings.py:142 | a group found at a position is there in the name: `[`, the code, `]` |
| AutoDiscover.FirstBracket | scripts/auto_discover_divert_mappings.py:142-144 | `re.search` of the bracket pattern yields a non-empty code of `[A-Z0-9.]` |
| AutoDiscover.FirstBracketLeftmost | scripts/auto_discover_divert_mappings.py:142-144 | the search finds the leftmost group, and finding none means the name has no group |
| AutoDiscover.OdpAt | scripts/auto_discover_divert_mappings.py:152-154 | a match at a position starts with `ODP` in any case and yields a non-empty digit run as the site number |
| AutoDiscover.FirstOdp | scripts/auto_discover_divert_mappings.py:152-154 | the searched site number is a non-empty digit run |
| AutoDiscover.FirstOdpLeftmost | scripts/auto_discover_divert_mappings.py:152-154 | the search finds the leftmost ODP match, and finding none means the name has none |
| AutoDiscover.GeoWritesExact | scripts/auto_discover_divert_mappings.py:160-171 | a geographic clue is written exactly when all its keywords appear in the upper-cased name, and it points at the location |
| AutoDiscover.GeoPatternsNames | scripts/auto_discover_divert_mappings.py:160-166 | the geographic clue names are distinct and have a lower-case second letter |
| AutoDiscover.BracketWritesKeys | scripts/auto_discover_divert_mappings.py:142-149 | the bracket clue is a code of `[A-Z0-9.]` pointing at the location, written exactly when it differs from the location's own code |
| AutoDiscover.OdpWritesKeys | scripts/auto_discover_divert_mappings.py:152-157 | ODP clue names start with `ODP ` and point at the location |
| AutoDiscover.ClueWritesShape | scripts/auto_discover_divert_mappings.py:138-171 | every clue of a location points at it; the bracketed code becomes a clue exactly when it is not the location's own code; a site number adds both `ODP n` and `ODP nC`; a geographic clue is added exactly when all its keywords appear |
| AutoDiscover.ClueWritesWith | scripts/auto_discover_divert_mappings.py:138-171 | the same for any table of geographic patterns whose names are distinct and cannot be bracket or ODP clue names |
| AutoDiscover.CluesLookup | scripts/auto_discover_divert_mappings.py:136-173 | the clue dictionary maps each clue to the location of its last assignment |
| AutoDiscover.ExtractLocationMappingClues | scripts/auto_discover_divert_mappings.py:130-173 | the loop over the locations builds exactly the clue dictionary |
| AutoDiscover.ExtractClues | scripts/auto_discover_divert_mappings.py:136-173 | after the loop the dictionary is every assignment of every location applied in discovery order |
| AutoDiscover.AddLocationClues | scripts/auto_discover_divert_mappings.py:139-171 | one location's assignments are applied in order: bracket, ODP, then geographic clues |
| AutoDiscover.AddBracketClue | scripts/auto_discover_divert_mappings.py:142-149 | the bracketed code is assigned the location unless it is the location's own code |
| AutoDiscover.AddOdpClues | scripts/auto_discover_divert_mappings.py:152-157 | `ODP n` and then `ODP nC` are assigned the location when the name has a site number |
| AutoDiscover.AddGeoClues | scripts/auto_discover_divert_mappings.py:168-171 | the pattern loop assigns each geographic clue whose keywords all appear |
| MappingCode.BasePrefix | scripts/auto_discover_divert_mappings.py:203-205 | a prefix is found exactly when the code starts with a capital letter; it is the longest leading run of capitals |
| MappingCode.ArrayBase | scripts/auto_discover_divert_mappings.py:186-188 | a code that belongs to an array belongs to that of its leading run of capitals |
| MappingCode.EchoNotGrouped | scripts/auto_discover_divert_mappings.py:186 | a code like `ECHO3.H1`, with digits after the letters, belongs to no array |
| MappingCode.NcNotGrouped | scripts/auto_discover_divert_mappings.py:186 | a code like `NC27.H3` belongs to no array |
| MappingCode.ArrayCodeGrouped | scripts/auto_discover_divert_mappings.py:186 | `BACAX.H2` belongs to the array `BACAX` |
| MappingCode.Groups | scripts/auto_discover_divert_mappings.py:182-189 | the grouping gives each prefix one list |
| MappingCode.GroupsMembers | scripts/auto_discover_divert_mappings.py:182-189 | a prefix's list holds exactly the codes whose array is that prefix, and a prefix present has a non-empty list |
| MappingCode.SortGroups | scripts/auto_discover_divert_mappings.py:192-193 | sorting keeps the number of arrays |
| MappingCode.SortGroupsLookup | scripts/auto_discover_divert_mappings.py:192-193 | sorting keeps the prefixes and sorts each list |
| MappingCode.ArraysShape | scripts/auto_discover_divert_mappings.py:182-193 | a prefix's array holds, sorted strictly, exactly the discovered codes of that array, and a prefix is present exactly when its array is non-empty |
| MappingCode.Touch | scripts/auto_discover_divert_mappings.py:206 | reading a `defaultdict` inserts the prefix and changes no list |
| MappingCode.Escaped | scripts/auto_discover_divert_mappings.py:208 | the written code contains no raw newline and a code without one is written as is |
| MappingCode.NatStr | scripts/auto_discover_divert_mappings.py:286 | an entry number is written as a non-empty run of digits |
| MappingCode.NcMappingsNumbered | scripts/auto_discover_divert_mappings.py:237-243 | the five NC-DDS entries are numbered 1 to 5 in order |
| MappingCode.DedupeMembers | scripts/auto_discover_divert_mappings.py:214-220 | deduplication keeps exactly the SoG entries generated |
| MappingCode.DedupeDistinct | scripts/auto_discover_divert_mappings.py:214-220 | deduplication keeps each entry once |
| MappingCode.DedupeOrder | scripts/auto_discover_divert_mappings.py:214-220 | deduplication keeps the entries in the order they were first generated |
| MappingCode.HydrophonesKept | scripts/auto_discover_divert_mappings.py:246-249 | arrays that only gained empty lists give an entry the same hydrophones |
| MappingCode.HydrophonesMembers | scripts/auto_discover_divert_mappings.py:246-249 | an entry lists exactly the codes of the arrays of its prefixes |
| MappingCode.EntryHydrophones | scripts/auto_discover_divert_mappings.py:182-249 | with the discovered arrays, an entry lists exactly the discovered codes whose array is one of its prefixes |
| MappingCode.SogPassShape | scripts/auto_discover_divert_mappings.py:200-212 | the SoG loop only inserts empty lists, writes at most one entry per location, and every entry is an East, Delta or Central one |
| MappingCode.SaanichPassKeeps | scripts/auto_discover_divert_mappings.py:226-232 | the Saanich loop only inserts empty lists |
| MappingCode.SaanichPassEntry | scripts/auto_discover_divert_mappings.py:226-232 | the Saanich entry is that of the first Saanich location whose prefix has an array, and there is none otherwise |
| MappingCode.OdpPassKeeps | scripts/auto_discover_divert_mappings.py:253-274 | the ODP loop only inserts empty lists |
| MappingCode.OdpPassHydrophones | scripts/auto_discover_divert_mappings.py:253-274 | an ODP entry lists the array of the last matching ODP location that has one, and keeps its own hydrophones when none does |
| MappingCode.BracketEntryShape | scripts/auto_discover_divert_mappings.py:245-286 | a bracketed ODP entry lists the ODP hydrophones with the placeholder comment, because the loop's `else` always runs; any other entry lists its prefixes' arrays before its comment |
| MappingCode.BracketEntriesShape | scripts/auto_discover_divert_mappings.py:245-286 | the bracketed entries come one per NC-DDS entry, in order, each as above, and only insert empty lists |
| MappingCode.PassesKeep | scripts/auto_discover_divert_mappings.py:200-286 | the SoG, Saanich and bracketed passes only insert empty lists, so every section sees the discovered arrays |
| MappingCode.SaanichSection | scripts/auto_discover_divert_mappings.py:224-232 | the Saanich section is the entry of the first Saanich location whose prefix has a discovered array, or nothing |
| MappingCode.BracketSection | scripts/auto_discover_divert_mappings.py:234-286 | the table has five bracketed entries in the order 1 to 5, each written from the discovered arrays |
| MappingCode.FallbackSection | scripts/auto_discover_divert_mappings.py:288-305 | the table has five fallback entries, each listing its prefixes' discovered arrays |
| MappingCode.MappingFrame | scripts/auto_discover_divert_mappings.py:195-309 | the generated table opens with the header and closes with `}` |
| MappingCode.RenderFrame | scripts/auto_discover_divert_mappings.py:195-307 | whatever the sections, the text starts with the header and ends with `}` |
| MappingCode.GenerateDivertMapping | scripts/auto_discover_divert_mappings.py:175-309 | the step-by-step generation writes exactly the table text |
| MappingCode.BuildLocationArrays | scripts/auto_discover_divert_mappings.py:182-193 | the grouping and sorting loops build exactly the sorted arrays |
| MappingCode.GroupCodes | scripts/auto_discover_divert_mappings.py:184-189 | the grouping loop appends each array code to its prefix's list |
| MappingCode.SortArrays | scripts/auto_discover_divert_mappings.py:192-193 | the sorting loop sorts every list |
| MappingCode.SogMappings | scripts/auto_discover_divert_mappings.py:201-212 | the SoG loop computes exactly the SoG pass |
| MappingCode.SogMapping | scripts/auto_discover_divert_mappings.py:203-212 | one SoG location writes its entry when its prefix has an array |
| MappingCode.DedupeLines | scripts/auto_discover_divert_mappings.py:215-220 | the loop with its `seen` set computes exactly the deduplicated entries |
| MappingCode.SaanichMapping | scripts/auto_discover_divert_mappings.py:226-232 | the Saanich loop, left at its first entry, computes exactly the Saanich pass |
| MappingCode.BracketMappings | scripts/auto_discover_divert_mappings.py:245-286 | the bracketed loop leaves exactly the arrays of the bracketed pass and writes its entries in order |
| MappingCode.BracketMapping | scripts/auto_discover_divert_mappings.py:246-286 | one bracketed entry is computed exactly |
| MappingCode.FallbackMappings | scripts/auto_discover_divert_mappings.py:290-305 | the fallback loop writes exactly the fallback entries, one per NC-DDS entry, in order, on the arrays the earlier sections left |
| MappingCode.HydrophonesOf | scripts/auto_discover_divert_mappings.py:246-249 | the prefix loop collects exactly the entry's hydrophones |
| MappingCode.OdpOverride | scripts/auto_discover_divert_mappings.py:253-274 | the ODP loop computes exactly the ODP pass |
| MappingCode.CommentFor | scripts/auto_discover_divert_mappings.py:276-284 | the comment is that of the first prefix that is a key: the name of the first location whose code starts with it |
| MappingCode.AutoDiscoverDivertMappings | scripts/auto_discover_divert_mappings.py:317-331 | no locations means no table; otherwise the table generated from the locations and their categories |

## Left out

- ONC API calls (`getListByDevice`, `getDeployments`, `getLocations`, `getDevices`): network I/O. Their answers are input sequences. `discover_hydrophone_locations` is left out for the same reason, and its result is the input of the mapping generator.
- The psycopg2 database queries and their fallbacks: I/O.
- The HTML dashboard, all console output and the file written by the mapping generator: presentation and I/O. The status message strings of a device are not modelled; its level and numbers are.
- The `ThreadPoolExecutor` fan-out over devices: concurrency. One device's check is modelled, and so is the summary over a list of statuses.
- Gmail OAuth, message search and MIME/base64 body extraction: foreign library calls. The subject and decoded body of each message are inputs. `analyze_divert_emails` of the set-up script is Gmail plumbing; the email names it finds are an input.
- `datetime.now()`, `strptime`, `fromisoformat` and the file-name date regex: the clock is a parameter, timestamps are whole seconds and dates are day numbers. Where the source reads the clock several times in one call, the model uses one `now`.
- Python float rounding in percentages: the model computes exactly. `0.3 * 100` is not exactly 30 in floats, and the model compares against exactly 30%.
- Full Python `re` semantics: each pattern is a hand-written scanner for the pattern as written. `\d`, `\s` and case-insensitive matching are ASCII-only, and Unicode digits, spaces and case folding are not modelled.
- `str.upper`, `str.lower` and `str.strip` are ASCII-only.
- DivertStatus.ResolvePairs: when a code's stored timestamp is `None` and a later email in the newest-first order has a timestamp (possible only at exactly `datetime.min`), Python raises `TypeError`; the model keeps the stored status instead.
- Set iteration order: the set-up script's email names are a Python `set` whose iteration order Python does not fix. The model takes them as a sequence of distinct names, and the unmapped and nonexistent lists follow that sequence. The device codes of a parent location are a set too, but only their number is used.
- The `depth` and `begin` fields of deployments: their values are only printed; the one way `begin` changes the outcome (a `None` value) is under check_odp_locations below.
- MappingCode.Escaped: `repr` of a code is modelled only for the characters array codes can hold (capital letters, `.`, digits and a final newline).
- The `mapping_clues` of the generator are computed and proved but not used by `generate_divert_mapping`, as in the source.
- The `None` base code of NC-DDS entry 4 is an empty list of prefixes: `None` is skipped by the source's `if base_code` test, as an absent prefix is.
- check_odp_locations: three ways the source raises part-way are not modelled, because the model's records always carry a string code, name and start. A location record whose `locationName` is present but `None` raises on `.upper()`. An active deployment without `locationCode` raises `KeyError` at scripts/check_odp_locations.py:42, outside the inner `try`, so the outer handler ends the whole check with no summary. A deployment whose `begin` is `None` raises `TypeError` on `[:10]` at line 70, which stops the candidate loop part-way and, through the same outer handler, skips the summary.
- tests/test_gmail_parser.py: a manual script that needs credentials and checks nothing.
- scripts/list_locations.py, scripts/test_mappings.py (except the example at lines 52-58, proved as `DivertEmail.ShippedMappingExample`), scripts/auto_generated_divert_mapping.py and the `__init__.py` files: drivers, static data and re-exports.

## Findings

| source | as written | input that shows it | evidently intended | confidence | as-written member | corrected member |
|---|---|---|---|---|---|---|
| legacy/gmail_divert_parser.py:560-580 | the legacy `get_divert_statistics` adds the whole duration of every selected period, even the part outside the analysis window | a Divert period from 0 to 10 followed by an ongoing Bypass from 10, statistics over the window [5, 10] at time 10: divert time 10 over a 5-second window, 200% | divert time counted only inside the window, so the divert and bypass percentages add up to at most 100, as the current parser does | not executed; high | LegacyParser.UnclippedPercentageExceeds | DivertPeriods.StatisticsWithinWindow |
