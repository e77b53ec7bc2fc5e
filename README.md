# Perkunas dispatch dashboard — verified model of its core logic

Perkunas is a Vue dashboard for a fire and EMS dispatch centre. A SignalR hub pushes incident and unit messages; the incidents list and the alert panel reconcile them; the staffing panels show who is on the roster for the day's platoon; and a clock, an elapsed-time timer and a small logger complete it. This project is a Dafny model of the parts of it that are sequential and deterministic:

- **Incident list reconciliation** (`incident_board.dfy`, module `IncidentBoard`). The component's `incidents` array is a class field. `loadIncidents`, `onIncidentAdded`, `onIncidentUpdated` and `onIncidentUnitUpdated` are methods that change it in place. Specification functions say what each one leaves behind.
- **Status and time-string utilities** (`incidents_utils.dfy`, `incident_alerts_utils.dfy`):
  - the 23-entry unit status table, with status 1 shown as "clear";
  - the dispatch-time parser `parseShiftTimes`, a 12-hour to 24-hour converter;
  - the call-type icon lookup.

  The alerts component and the swim-lane roster carry character-for-character copies of the table and the parser. Each copy is modelled once and cited against every place it appears.
- **Alert panel helpers** (`incident_alerts.dfy`): `padTime`, `colorUnit`, `closeAlerts`, `unalert` and the two computed properties.
- **Hub message normaliser and connection lifecycle** (`dashboard_hub.dfy`). Each inbound hub message maps to the sequence of events the plugin emits. The `startSignalR` / `stopSignalR` / `onclose` flag logic is a class whose fields are the plugin's closure variables.
- **Staffing roster logic**:
  - `staffing_rules.dfy` holds the first-match rank classification and the 9-day platoon cycle. Both Telestaff utilities files have identical copies of these.
  - `telestaff_utils.dfy` and `telestaff_swim_utils.dfy` hold the two `mapRoster` variants: group-by-unit, and keyed regrouping of working positions plus activities.
  - `telestaff_view.dfy` and `telestaff_swim_view.dfy` hold the two components' helpers and their `staff` / `loadRoster` / `autoupdate` state updates. `scheduling.dfy` holds the polling guard the views and the clock share.
- **Timer and clock widgets** (`digital_timer.dfy`, `digital_clock.dfy`):
  - integer milliseconds to `[h:]mm:ss`;
  - the colour bands;
  - the clock's segment-mask background string and its tick guards.
- **Logger level gating** (`logger.dfy`): the environment override, the default level, `shouldLog`, `formatMessage` and the gated methods.

`js_builtins.dfy` (module `JsBuiltins`) models the JavaScript built-ins these need. Each follows the language's rules where they matter:

- `toLowerCase`/`toUpperCase`;
- `trim`, with the exact whitespace set;
- `split` on one character, and `includes`;
- `padStart`, `parseInt` and `Number()`;
- `%` with the sign of the dividend;
- `Array.prototype.find`/`filter`.

Promises, timers, the network and the clock are not modelled as such:

- the outcome of a fetch is a `Result` parameter;
- a pending `setTimeout` is an `Option<int>` field holding the delay it was scheduled with;
- "now", as formatted by the date library, is a string parameter;
- calendar dates are integer day numbers counted from 1970-01-01. The reference days 3 to 13 January 2017 are days 17169 to 17179: without an array plugin `dayjs([2017, 1, d])` passes the array to `new Date`, which reads the text "2017,1,d" with a 1-based month.

## Model

| member | source | states |
|---|---|---|
| IncidentBoard.Board.constructor | src/components/VueIncidents/script.js:21-27 | the list starts as null |
| IncidentBoard.Board.LoadIncidents | src/components/VueIncidents/script.js:66-70 | the stored list is the reverse of the fetched one |
| IncidentBoard.Reversed | src/components/VueIncidents/script.js:70 | same length; element k is the fetched list's element at the mirrored position |
| IncidentBoard.ReversedTwice | src/components/VueIncidents/script.js:70 | reversing the stored list gives the fetched order back: nothing is lost or reordered otherwise |
| IncidentBoard.Board.OnIncidentAdded | src/components/VueIncidents/script.js:89-94 | the incident is put in front of the old list; against the null list nothing changes |
| IncidentBoard.AddDoesNotDeduplicate | src/components/VueIncidents/script.js:89-91 | adding an incident whose id is already listed lists that id once more |
| IncidentBoard.Board.OnIncidentUpdated | src/components/VueIncidents/script.js:95-101 | the new list is the old one with the field update applied to each incident |
| IncidentBoard.SetField | src/components/VueIncidents/script.js:98 | writing `id` replaces the id; writing `units` leaves no units array and keeps the other fields; any other name is written into the fields and the id and units stay |
| IncidentBoard.PatchAll | src/components/VueIncidents/script.js:95-101 | length and order are kept; each incident is patched on its own |
| IncidentBoard.FieldUpdateIsLocal | src/components/VueIncidents/script.js:95-101 | a matching incident gets `field := value` with its id and other fields kept; its units stay unless the field is `units`, which leaves no array; non-matching incidents are unchanged |
| IncidentBoard.UnitsOverwriteBreaksUnitUpdate | src/components/VueIncidents/script.js:98-107 | after `units` of a listed incident is overwritten, the next unit update for that id throws at or before that incident |
| IncidentBoard.FieldUpdateUnknownId | src/components/VueIncidents/script.js:96-100 | an update for an id no incident has leaves the list as it was |
| IncidentBoard.Board.OnIncidentUnitUpdated | src/components/VueIncidents/script.js:102-121 | the new list is the old one with the unit upserted in every matching incident up to the first matching incident without a units array; `ok` (no TypeError) exactly when there is none |
| IncidentBoard.FirstBroken | src/components/VueIncidents/script.js:103-107 | the position of the first incident with the id whose `units` is not an array, or the list's length: none before it is such an incident |
| IncidentBoard.UpsertAll | src/components/VueIncidents/script.js:102-121 | length and order are kept; each incident before the first broken one is handled on its own, and the rest stay as they were |
| IncidentBoard.UpsertAllStopsAtSamePlace | src/components/VueIncidents/script.js:102-121 | a repeated unit update throws at the same incident as the first one |
| IncidentBoard.UpsertOverwritesStatus | src/components/VueIncidents/script.js:106-112 | every unit with the radio name gets the new statusId and keeps its other fields; other units stay |
| IncidentBoard.UpsertAppendsNewUnit | src/components/VueIncidents/script.js:106-118 | with no such unit, exactly one `{radioName, statusId}` record is appended at the end and the old units are kept |
| IncidentBoard.UpsertHasRadio | src/components/VueIncidents/script.js:106-118 | after the upsert a unit with that radio name exists |
| IncidentBoard.UpsertIdempotent | src/components/VueIncidents/script.js:106-118 | upserting the same unit twice equals upserting it once |
| IncidentBoard.UnitUpdateIdempotent | src/components/VueIncidents/script.js:102-121 | applying the same unit update twice to the list equals applying it once |
| IncidentBoard.UnitUpdateIsLocal | src/components/VueIncidents/script.js:103-105 | id and fields of every incident are kept; non-matching incidents are untouched |
| IncidentsUtils.StatusRow | src/components/VueIncidents/utils.js:111-113 | `UNIT_STATUS_MAPPING[id]` finds a row exactly for a number 0 to 22 or a string that is the decimal name of such a row; every other id reads undefined |
| IncidentsUtils.GetUnitStatus | src/components/VueIncidents/utils.js:111-113 | succeeds exactly when the id names a row, with that row's code lower-cased character by character; otherwise a TypeError; src/components/VueIncidentAlerts/utils.js:142-144 is a verbatim copy |
| IncidentsUtils.GetUnitIncidentStatus | src/components/VueIncidents/utils.js:106-109 | the number 1 shows as "clear" (row 22); every other id, the string "1" included, gives what getUnitStatus gives; src/components/VueIncidentAlerts/utils.js:137-140 is a verbatim copy |
| IncidentsUtils.UnitIncidentStatusExamples | src/components/VueIncidents/utils.js:1-94 | 6 gives "d", 10 "os", 0 "off", and status 1's own code is "av" |
| IncidentsUtils.RowNamedFinds | src/components/VueIncidents/utils.js:111-113 | a string that reads as row d's index, and as no earlier row's, finds row d |
| IncidentsUtils.RowOfDigit | src/components/VueIncidents/utils.js:111-113 | a one-digit string names the row of that digit |
| IncidentsUtils.StringOneIsNotRemapped | src/components/VueIncidents/utils.js:106-109 | the string "1" escapes the strict `=== 1` and shows as "av" |
| IncidentsUtils.StringSixIsItsRow | src/components/VueIncidents/utils.js:111-113 | the string "6" reads row 6 and shows as "d" |
| IncidentsUtils.UnknownStatusThrows | src/components/VueIncidents/utils.js:106-113 | 23, -1, null and undefined name no row and throw a TypeError |
| IncidentsUtils.ParseShiftTimes | src/components/VueIncidents/utils.js:201-213 | null or at most ten characters gives ""; without a "PM" second word the first word comes back unchanged; src/components/VueIncidentAlerts/utils.js:146-158 and src/components/VueTelestaffSwim/utils.js:163-175 are verbatim copies |
| IncidentsUtils.ShiftWords | src/components/VueIncidents/utils.js:203-205 | at least one word; a null or short input gives the single empty word |
| IncidentsUtils.ShiftWordsWellFormed | src/components/VueIncidents/utils.js:203-205 | after a ten-character date, "time meridiem" splits into exactly those two words |
| IncidentsUtils.ParseShiftTimesWellFormed | src/components/VueIncidents/utils.js:201-213 | for "MM/DD/YYYY hh:mm AM\|PM": a PM hour other than 12 gains 12, every other time is returned as written |
| IncidentsUtils.FromWordsWellFormed | src/components/VueIncidents/utils.js:206-212 | the PM rule on the two words of a dispatch time |
| IncidentsUtils.ParseShiftTimesEvening | src/components/VueIncidents/utils.js:206-211 | "… 07:00 PM" gives "19:00" |
| IncidentsUtils.ParseShiftTimesNoon | src/components/VueIncidents/utils.js:206-211 | "… 12:30 PM" keeps its hour |
| IncidentsUtils.ParseShiftTimesMidnight | src/components/VueIncidents/utils.js:206-212 | "… 12:30 AM" is returned unchanged |
| IncidentAlertsUtils.GetIncidentIcon | src/components/VueIncidentAlerts/utils.js:112-127 | medical, fire and other map to their icons; any other or missing type gives "./icons/fire.png"; every result starts "./icons/" and ends ".png" |
| IncidentAlerts.PadTime | src/components/VueIncidentAlerts/script.js:119-121 | at least two characters; a digit below 10 gets a leading "0"; two or more digits are unchanged; a non-negative value reads back as itself |
| IncidentAlerts.PadTimeExamples | src/components/VueIncidentAlerts/script.js:119-121 | 7 gives "07" and 12 gives "12" |
| IncidentAlerts.ColorUnit | src/components/VueIncidentAlerts/script.js:130-132 | the number 1 gives "vwia__unit_status_clear"; any other id that names a row gives the prefix and that row's lower-cased code; an id naming no row throws a TypeError |
| IncidentAlerts.ColorUnitStringOne | src/components/VueIncidentAlerts/script.js:130-132 | the string status "1" gives "vwia__unit_status_av", not the clear class |
| IncidentAlerts.NumAlertedIncidents | src/components/VueIncidentAlerts/script.js:161-163 | the number of incidents |
| IncidentAlerts.ShowAlert | src/components/VueIncidentAlerts/script.js:168-170 | true exactly when the list is non-empty |
| IncidentAlerts.ShowAlertMatchesCount | src/components/VueIncidentAlerts/script.js:161-170 | the alert shows exactly when the count is positive |
| IncidentAlerts.CloseAlerts | src/components/VueIncidentAlerts/script.js:139-143 | one "unalertIncident" per incident, carrying its id, in list order |
| IncidentAlerts.Unalert | src/components/VueIncidentAlerts/script.js:97-99 | one "unalertIncident" carrying the whole incident |
| DashboardHub.LowerFirst | src/plugins/DashboardHub.js:79-92 | length kept; "" stays ""; only the first character is lower-cased |
| DashboardHub.LowerFirstIdempotent | src/plugins/DashboardHub.js:80 | normalising twice equals normalising once |
| DashboardHub.LowerFirstKeepsCamelCase | src/plugins/DashboardHub.js:80 | a name not starting with a capital is unchanged |
| DashboardHub.Lookup | src/plugins/DashboardHub.js:150-166 | `unit.radioName`: a missing key reads as undefined; otherwise the value of the first entry with that key, wherever it is |
| DashboardHub.NonRadioEntries | src/plugins/DashboardHub.js:157-165 | every entry kept is one of the unit's entries and is not radioName, and every entry that is not radioName is kept |
| DashboardHub.NonRadioEntriesSingle | src/plugins/DashboardHub.js:158 | a single entry is kept exactly when its key is not radioName |
| DashboardHub.NonRadioEntriesConcat | src/plugins/DashboardHub.js:157-165 | the filter distributes over concatenation, so the kept entries stay in the unit's order |
| DashboardHub.NonRadioEntriesCount | src/plugins/DashboardHub.js:157-165 | the kept entries plus the radioName entries are all the entries |
| DashboardHub.FanOut | src/plugins/DashboardHub.js:157-165 | one "unit-updated" per non-radioName entry, in key order, with the key as written and the unit's radio name |
| DashboardHub.Normalize | src/plugins/DashboardHub.js:64-204 | per message kind, the events emitted: field names first-letter lower-cased, removals wrapped unchanged, the unit-status message fanned out after one incident event; no handler emits "disconnected" |
| DashboardHub.UnitStatusFanOutSize | src/plugins/DashboardHub.js:150-166 | for a unit with one radioName entry, as many events as entries, every unit event naming that unit |
| DashboardHub.FanOutKeepsKeys | src/plugins/DashboardHub.js:157-165 | fan-out keys are not lower-cased |
| DashboardHub.FieldChangedExample | src/plugins/DashboardHub.js:79-92 | "StatusId" reaches the list as "statusId" |
| DashboardHub.AfterStart | src/plugins/DashboardHub.js:244-246 | starting builds the connection, holds a start promise and clears the manual-close flag |
| DashboardHub.AfterStop | src/plugins/DashboardHub.js:261-270 | never started: nothing; otherwise manually closed and no promise |
| DashboardHub.RestartsOnClose | src/plugins/DashboardHub.js:232-240 | restart on close exactly when the close was not manual |
| DashboardHub.AfterClose | src/plugins/DashboardHub.js:232-240 | a restart leaves a start promise; the flags are otherwise kept |
| DashboardHub.StopThenCloseStaysClosed | src/plugins/DashboardHub.js:232-270 | a close after a stop does not restart |
| DashboardHub.UnplannedCloseRestarts | src/plugins/DashboardHub.js:232-245 | after a start, and after a start that follows a stop, a close restarts |
| DashboardHub.HubLifecycle.constructor | src/plugins/DashboardHub.js:30-43 | no connection, no promise, not manually closed |
| DashboardHub.HubLifecycle.StartSignalR | src/plugins/DashboardHub.js:244-246 | the flags become those of AfterStart and one more start is made |
| DashboardHub.HubLifecycle.StopSignalR | src/plugins/DashboardHub.js:261-270 | acts exactly when started; the flags become those of AfterStop |
| DashboardHub.HubLifecycle.OnClose | src/plugins/DashboardHub.js:232-240 | emits "disconnected" and restarts exactly when not manually closed |
| StaffingRules.RemoveMarks | src/components/VueTelestaff/utils.js:181 | no '.' or '+' is left, nothing else is added, every other character of the input is kept, a string without them is unchanged |
| StaffingRules.RemoveMarksSingle | src/components/VueTelestaff/utils.js:181 | one character is dropped exactly when it is '.' or '+' |
| StaffingRules.RemoveMarksConcat | src/components/VueTelestaff/utils.js:181 | the removal distributes over concatenation, so the other characters keep their order |
| StaffingRules.CleanTitle | src/components/VueTelestaff/utils.js:180-181 | the cleaned title has no whitespace at either end |
| StaffingRules.CleanTitleUnchanged | src/components/VueTelestaff/utils.js:180-181 | an already lower-case, mark-free, trimmed title is unchanged |
| StaffingRules.MatchesTitle | src/components/VueTelestaff/utils.js:183-190 | true exactly when one of the titles occurs in the string |
| StaffingRules.FindRank | src/components/VueTelestaff/utils.js:183-191 | none exactly when no mapping matches; otherwise a mapping from the list |
| StaffingRules.FindRankIsFirstMatch | src/components/VueTelestaff/utils.js:183-191 | over distinct mappings, mapping i is found exactly when it matches and no earlier one does |
| StaffingRules.IncludesEmpty | src/components/VueTelestaff/utils.js:37-41 | the empty title occurs in every string |
| StaffingRules.GetRank | src/components/VueTelestaff/utils.js:179-192 | always one of the four mappings, never undefined; src/components/VueTelestaffSwim/utils.js:145-161 is a copy of the same classification |
| StaffingRules.GetRankIsFirstMatch | src/components/VueTelestaff/utils.js:14-42 | rank i is returned exactly when one of its titles occurs in the cleaned string and no earlier rank's does |
| StaffingRules.MedicWins | src/components/VueTelestaff/utils.js:183-191 | a cleaned title containing "medic" is a medic, whatever else it contains |
| StaffingRules.MedicCaptain | src/components/VueTelestaff/utils.js:179-192 | "medic captain" is a medic |
| StaffingRules.DefaultIsFirefighter | src/components/VueTelestaff/utils.js:37-41 | a title matching none of the first three ranks is a firefighter |
| StaffingRules.FindShift | src/components/VueTelestaff/utils.js:222-229 | none exactly when no reference day is a multiple of 9 days away; otherwise a letter from the table |
| StaffingRules.PlatoonOf | src/components/VueTelestaff/utils.js:214-220 | the letter for a day's residue mod 9 is a, b or c: a for residues 6, 8, 1 (3, 5, 7 January 2017), b for 0, 2, 4, c for 3, 5, 7 |
| StaffingRules.SameCycleDayByResidue | src/components/VueTelestaff/utils.js:224-225 | a day difference is a multiple of 9 exactly when the residues agree |
| StaffingRules.StartOfResidue | src/components/VueTelestaff/utils.js:214-220 | the position, among the January 2017 reference days, of the one with a given residue |
| StaffingRules.ReferenceDaysCoverCycle | src/components/VueTelestaff/utils.js:214-220 | the nine reference days (3 to 13 January 2017) have nine distinct residues mod 9, and each letter's days are that letter's residues |
| StaffingRules.FindShiftIsPlatoon | src/components/VueTelestaff/utils.js:214-229 | the search over the nine January 2017 reference days finds a letter for every day, the platoon of its residue mod 9 |
| StaffingRules.GetShift | src/components/VueTelestaff/utils.js:211-230 | never undefined: every day gets the platoon of its residue mod 9; src/components/VueTelestaffSwim/utils.js:177-196 is a copy of the same cycle |
| StaffingRules.ShiftPeriod | src/components/VueTelestaff/utils.js:222-229 | days nine apart get the same letter |
| StaffingRules.ReferenceDayLetters | src/components/VueTelestaff/utils.js:214-220 | 3 January 2017 is an a day, the 6th a b day and the 9th a c day |
| TelestaffUtils.FetchRoster | src/components/VueTelestaff/utils.js:84-98 | a failed fetch or a status other than 200 resolves to undefined; otherwise to the mapped roster for the station |
| TelestaffUtils.FilterUnits | src/components/VueTelestaff/utils.js:107-112 | the radio names, same length and order |
| TelestaffUtils.UnitNames | src/components/VueTelestaff/utils.js:124-136 | each record's unit name, in order |
| TelestaffUtils.Titles | src/components/VueTelestaff/utils.js:124-136 | each group's title, in order |
| TelestaffUtils.FirstOccurrences | src/components/VueTelestaff/utils.js:125-133 | the same set of names, each once |
| TelestaffUtils.FirstOccurrencesSeen | src/components/VueTelestaff/utils.js:126-127 | a name already seen adds no group |
| TelestaffUtils.FirstOccurrencesNew | src/components/VueTelestaff/utils.js:127-133 | a new name adds a group at the end |
| TelestaffUtils.RecordsOf | src/components/VueTelestaff/utils.js:124-136 | the records of one unit, in input order; none for an unknown unit |
| TelestaffUtils.TitleIndex | src/components/VueTelestaff/utils.js:126 | findIndex: the first group with the title, or -1 when there is none |
| TelestaffUtils.FindUnit | src/components/VueTelestaff/utils.js:126 | the loop finds the same index |
| TelestaffUtils.MapRoster | src/components/VueTelestaff/utils.js:122-146 | the groups of the reduce, the shift of the roster day and the requested station |
| TelestaffUtils.Grouped | src/components/VueTelestaff/utils.js:124-136 | the reduce yields no more units than records, and every unit holds at least one position |
| TelestaffUtils.GroupedHasShape | src/components/VueTelestaff/utils.js:124-136 | groups in first-occurrence order; each group's positions are its unit's records in input order, its notes from the first of them |
| TelestaffUtils.RecordsOfSnoc | src/components/VueTelestaff/utils.js:135 | a new record joins exactly its own unit's records |
| TelestaffUtils.UnitMatchesOther | src/components/VueTelestaff/utils.js:135 | a record leaves other groups as they were |
| TelestaffUtils.UnitMatchesSame | src/components/VueTelestaff/utils.js:135 | a record appended to its group keeps the group's shape |
| TelestaffUtils.AddRecordKeepsShape | src/components/VueTelestaff/utils.js:125-136 | one reduce step keeps the grouping shape |
| TelestaffUtils.GroupedTitlesDistinct | src/components/VueTelestaff/utils.js:125-133 | group titles are pairwise distinct |
| TelestaffUtils.GroupedContainsEveryRecord | src/components/VueTelestaff/utils.js:124-136 | every record's unit has a group |
| TelestaffUtils.RecordsOfContains | src/components/VueTelestaff/utils.js:135 | every record is in its own unit's group |
| TelestaffUtils.TotalAppend | src/components/VueTelestaff/utils.js:128-134 | a new group adds its positions to the total |
| TelestaffUtils.TotalGrow | src/components/VueTelestaff/utils.js:135 | pushing a record adds one position |
| TelestaffUtils.GroupedKeepsCount | src/components/VueTelestaff/utils.js:124-136 | the groups hold as many positions as there are records |
| TelestaffSwimUtils.ShiftName | src/components/VueTelestaffSwim/utils.js:115 | a second word exists exactly when the title has one |
| TelestaffSwimUtils.ShiftNameOfTitle | src/components/VueTelestaffSwim/utils.js:66-70 | the shift of "Ops X Shift" is the lower-case letter getShift chose |
| TelestaffSwimUtils.Working | src/components/VueTelestaffSwim/utils.js:83 | the working entries of the list and all of them |
| TelestaffSwimUtils.PeopleWithId | src/components/VueTelestaffSwim/utils.js:85-93 | entries carrying the given id, from the list |
| TelestaffSwimUtils.PositionsMapShape | src/components/VueTelestaffSwim/utils.js:83-95 | keys are exactly the ids of working entries; each key holds those entries in order and the first one's title |
| TelestaffSwimUtils.PositionsStep | src/components/VueTelestaffSwim/utils.js:85-93 | one step of the forEach keeps that shape |
| TelestaffSwimUtils.HasIdSnoc | src/components/VueTelestaffSwim/utils.js:86 | an id is present after a push exactly when it was before or is the pushed one |
| TelestaffSwimUtils.PeopleWithIdAbsent | src/components/VueTelestaffSwim/utils.js:86-91 | an id nobody carries gets no people |
| TelestaffSwimUtils.Regrouped | src/components/VueTelestaffSwim/utils.js:80-96 | succeeds exactly when every kept unit's Position is an array, keeping the unit count |
| TelestaffSwimUtils.ActivitiesShape | src/components/VueTelestaffSwim/utils.js:118-129 | two elements per unit with notes, off-roster units included, an activity then an empty array; every noted unit appears |
| TelestaffSwimUtils.MapRosterResult | src/components/VueTelestaffSwim/utils.js:43-131 | a roster names the stored station, the day's platoon letter, no off-roster unit and only regrouped positions |
| TelestaffSwimUtils.MapRosterNoShift | src/components/VueTelestaffSwim/utils.js:66-72 | no shift titled after the platoon is a TypeError |
| TelestaffSwimUtils.MapRosterNoStation | src/components/VueTelestaffSwim/utils.js:72-76 | no station with the stored name is a TypeError |
| TelestaffSwimUtils.MapRosterSucceeds | src/components/VueTelestaffSwim/utils.js:43-131 | the shift and the station present and every kept unit's Position an array: a roster comes back |
| TelestaffSwimUtils.SwimUtils.constructor | src/components/VueTelestaffSwim/utils.js:34 | the stored station starts as null |
| TelestaffSwimUtils.SwimUtils.FetchRoster | src/components/VueTelestaffSwim/utils.js:36-41 | stores the station, then rejects with the fetch error or resolves to mapRoster's outcome |
| TelestaffSwimUtils.SwimUtils.MapRoster | src/components/VueTelestaffSwim/utils.js:43-131 | the imperative mapRoster computes the specification's result for the stored station |
| TelestaffSwimUtils.RegroupUnits | src/components/VueTelestaffSwim/utils.js:80-96 | the forEach regroups every unit as specified |
| TelestaffSwimUtils.BuildPositions | src/components/VueTelestaffSwim/utils.js:84-93 | the positions dictionary the loop builds is the specified one |
| TelestaffSwimUtils.CollectActivities | src/components/VueTelestaffSwim/utils.js:118-129 | the reduce builds the specified activities |
| Scheduling.PollDelay | src/components/VueTelestaff/script.js:179-186 | a timer is scheduled exactly when Number(updateInterval) is a number of at least 10, with that delay; the same guard appears in src/components/VueTelestaffSwim/script.js:168-175 and src/components/VueDigitalClock/script.js:88-92 |
| Scheduling.PollDelayRejects | src/components/VueTelestaff/script.js:181-184 | 0, 9, undefined, null and true schedule nothing; 10 schedules 10 |
| TelestaffView.ConvertC2F | src/components/VueTelestaff/script.js:79-81 | 5 F = 9 C + 160 |
| TelestaffView.ConvertC2FPoints | src/components/VueTelestaff/script.js:79-81 | 0 gives 32, 100 gives 212, -40 gives -40 |
| TelestaffView.ConvertC2FInverse | src/components/VueTelestaff/script.js:79-81 | the usual F to C formula undoes it, and it is strictly increasing |
| TelestaffView.WorkingPositions | src/components/VueTelestaff/script.js:90-93 | always true: the filter's result is discarded |
| TelestaffView.FormatRank | src/components/VueTelestaff/script.js:101-103 | one of the four icons, the one of the rank getRank returns |
| TelestaffView.CutParen | src/components/VueTelestaff/script.js:111-113 | a prefix; a single-line name keeps no '('; a name without '(' is unchanged |
| TelestaffView.FormatName | src/components/VueTelestaff/script.js:111-113 | a single-line name loses every '('; the result has no whitespace at either end; src/components/VueTelestaffSwim/script.js:90-93 is an identical helper |
| TelestaffView.CutParenAtFirst | src/components/VueTelestaff/script.js:112 | the cut is at the first '(' |
| TelestaffView.FormatNameDropsSuffix | src/components/VueTelestaff/script.js:111-113 | "name (detail)" gives the trimmed name |
| TelestaffView.FormatNamePlain | src/components/VueTelestaff/script.js:111-113 | a name without '(' is only trimmed |
| TelestaffView.FormatTime | src/components/VueTelestaff/script.js:124-152 | full day: no icon and no text; day half: sun; night half: moon; anything else: plain "start - end"; an icon exactly when isIcon |
| TelestaffView.FormatTimePairs | src/components/VueTelestaff/script.js:128-146 | the three special pairs |
| TelestaffView.RosterDate | src/components/VueTelestaff/script.js:189-194 | "tomorrow" is +1 day, "yesterday" -1, anything else passes through |
| TelestaffView.StaffView.constructor | src/components/VueTelestaff/script.js:56-62 | loading, with no roster, error or timer |
| TelestaffView.StaffView.Autoupdate | src/components/VueTelestaff/script.js:179-186 | the pending timer is the guard's delay; nothing else changes |
| TelestaffView.StaffView.LoadRoster | src/components/VueTelestaff/script.js:188-202 | asks for the mapped date; stores the mapped roster, or undefined when the fetch was swallowed |
| TelestaffView.StaffView.Staff | src/components/VueTelestaff/script.js:163-177 | ends not loading, with error cleared, the loaded roster and the next poll |
| TelestaffSwimView.WorkingPositions | src/components/VueTelestaffSwim/script.js:82-84 | exactly the working entries |
| TelestaffSwimView.WorkingPositionsConcat | src/components/VueTelestaffSwim/script.js:82-84 | the filter keeps relative order |
| TelestaffSwimView.FormatShiftTime | src/components/VueTelestaffSwim/script.js:122-150 | the classification applied to the two parsed dispatch times |
| TelestaffSwimView.ParseShiftTimesMorning | src/components/VueTelestaffSwim/utils.js:163-175 | "… 07:00 AM" gives "07:00" |
| TelestaffSwimView.DayTourShowsSun | src/components/VueTelestaffSwim/script.js:122-137 | 7 AM to 7 PM shows the sun |
| TelestaffSwimView.NightTourShowsMoon | src/components/VueTelestaffSwim/script.js:122-143 | 7 PM to 7 AM shows the moon |
| TelestaffSwimView.FullTourShowsNothing | src/components/VueTelestaffSwim/script.js:122-131 | 7 AM to 7 AM shows nothing |
| TelestaffSwimView.StationRequest | src/components/VueTelestaffSwim/script.js:184-188 | the request is "Station " followed by the station |
| TelestaffSwimView.SwimStaffView.constructor | src/components/VueTelestaffSwim/script.js:65-71 | loading, with no roster, error or timer |
| TelestaffSwimView.SwimStaffView.Autoupdate | src/components/VueTelestaffSwim/script.js:168-175 | the pending timer is the guard's delay; nothing else changes |
| TelestaffSwimView.SwimStaffView.LoadRoster | src/components/VueTelestaffSwim/script.js:177-191 | asks for the mapped date and "Station <station>"; a roster replaces the stored one, a failure leaves it |
| TelestaffSwimView.SwimStaffView.Staff | src/components/VueTelestaffSwim/script.js:152-166 | ends not loading with the next poll; success clears error and stores the roster; failure sets error to message and stack and keeps the roster |
| DigitalTimer.TimeParts | src/components/VueDigitalTimer/script.js:114-116 | for a non-negative counter: minutes and seconds in 0..59, and hours, minutes and seconds account for every whole second |
| DigitalTimer.TimePartsInSeconds | src/components/VueDigitalTimer/script.js:114-116 | h·3600 + m·60 + s is the counter's whole seconds |
| DigitalTimer.MinutesSecondsShape | src/components/VueDigitalTimer/script.js:119-120 | minutes and seconds take two digits each and read back as themselves |
| DigitalTimer.TimeStringUnderAnHour | src/components/VueDigitalTimer/script.js:118-122 | under an hour the display is "mm:ss" with the counter's minutes and seconds |
| DigitalTimer.HoursPrefixShape | src/components/VueDigitalTimer/script.js:118 | a single-digit hour is padded to "0h:", larger hours print in full |
| DigitalTimer.TimeStringHours | src/components/VueDigitalTimer/script.js:118-122 | from an hour on, the hours prefix is followed by "mm:ss" |
| DigitalTimer.TimerWarnAsWritten | src/components/VueDigitalTimer/script.js:68-70 | as written, with a warn threshold of at least 1, warn equals colorCodeTimer whatever the counter |
| DigitalTimer.TimerWarnAsWrittenOverlaps | src/components/VueDigitalTimer/script.js:59-79 | with the default thresholds, 30 s is both okay and warn, and 2 min both warn and danger |
| DigitalTimer.TimerWarn | src/components/VueDigitalTimer/script.js:68-70 | corrected: warn exactly when coloured and neither okay nor danger |
| DigitalTimer.ColorBands | src/components/VueDigitalTimer/script.js:59-79 | with ordered thresholds and colour on, exactly one band holds; with colour off, none |
| DigitalTimer.ColorBandsMonotone | src/components/VueDigitalTimer/script.js:59-79 | danger stays danger as the counter grows, and a counter past okay stays past it |
| DigitalTimer.Timer.constructor | src/components/VueDigitalTimer/script.js:44-51 | no counter, time or timer yet |
| DigitalTimer.Timer.Mount | src/components/VueDigitalTimer/script.js:86-89 | the counter starts from the elapsed time and one tick runs |
| DigitalTimer.Timer.TimerTick | src/components/VueDigitalTimer/script.js:104-124 | the counter always grows by the interval; a zero interval writes no time and schedules nothing; otherwise the display of the new counter and the next tick |
| DigitalTimer.Timer.Okay | src/components/VueDigitalTimer/script.js:59-61 | okay only with colour coding, and with ordered thresholds never together with warn or danger |
| DigitalTimer.Timer.Warn | src/components/VueDigitalTimer/script.js:68-70 | corrected: warn exactly when colour-coded and neither okay nor danger |
| DigitalTimer.Timer.Danger | src/components/VueDigitalTimer/script.js:77-79 | danger only with colour coding, and with ordered thresholds never together with okay or warn |
| DigitalClock.MaskChar | src/components/VueDigitalClock/script.js:69 | a character of the class becomes '8', any other is kept |
| DigitalClock.BackgroundString | src/components/VueDigitalClock/script.js:69 | same length; letters of either case and ")" to "9" become '8'; other characters are kept |
| DigitalClock.BackgroundIdempotent | src/components/VueDigitalClock/script.js:69 | masking twice equals masking once |
| DigitalClock.BackgroundCharacters | src/components/VueDigitalClock/script.js:69 | a background holds only '8' and characters the mask keeps |
| DigitalClock.DefaultBackground | src/components/VueDigitalClock/script.js:33-34 | the default "HH:mm:ss" gives "88:88:88" |
| DigitalClock.Clock.constructor | src/components/VueDigitalClock/script.js:55-62 | no background, time, date or timer yet |
| DigitalClock.Clock.Mounted | src/components/VueDigitalClock/script.js:68-72 | the background of the time format, then one tick |
| DigitalClock.Clock.ClockTick | src/components/VueDigitalClock/script.js:87-100 | with a rejected interval nothing is updated or scheduled; otherwise time and date refresh only for non-empty formats and the next tick is scheduled |
| Logger.LevelOf | src/utils/logger.js:6-12 | a level exactly for the five names, at its index |
| Logger.GetLogLevel | src/utils/logger.js:18-30 | a valid level; an override naming a level, read upper-cased, wins; otherwise WARN in production and DEBUG elsewhere |
| Logger.OverrideIgnoresCase | src/utils/logger.js:23-26 | "warn", "Warn" and "WARN" all select WARN |
| Logger.DefaultLevels | src/utils/logger.js:19-29 | without a usable override: production gives WARN; a missing or empty NODE_ENV and any other value give DEBUG |
| Logger.ShouldLogMonotone | src/utils/logger.js:39-41 | a logged level makes every higher level logged |
| Logger.FormatMessage | src/utils/logger.js:49-53 | the "[timestamp] [LEVEL]" prefix, then the arguments unchanged: one more element |
| Logger.Emit | src/utils/logger.js:63-97 | at most one console call, made exactly when the level is logged, to the level's console method with the formatted message |
| Logger.LogCalls | src/utils/logger.js:103-105 | log makes exactly the calls info makes |
| Logger.SilentSuppressesAll | src/utils/logger.js:6-12 | at level NONE, debug, info, warn, error and log make no call |
| Logger.GatingFollowsLevel | src/utils/logger.js:32-41 | under the level chosen from the environment, a call is made exactly when its level is at least that level |
| Logger.ProductionGating | src/utils/logger.js:19-29 | in production without an override, debug and info are silent; warn and error print once |

## Left out

- Network I/O: every `fetch` and `resp.json()`. A fetch's outcome is a parameter. VueMessages is not part of this model: it is only a fetch and a timer.
- SignalR transport: building the connection, `start()` with its 5000 ms retry chain, `state()`, and the `JoinDashboard`/subscribe `invoke` calls. Only the flag logic is modelled.
- `src/dashboard-hub.js` and `src/incident-hub.js` are not part of this model: they forward hub events unchanged.
- Date and time libraries and the wall clock:
  - `getDeltaDay` and `getTodayOrDayName` are reduced to the requested day delta;
  - the staffing view's dayjs-based `parseShiftTimes` is reduced to its formatted result (`FormatTime` takes the two formatted strings);
  - the `day`/`date` fields of a roster are left out;
  - the timer's seed `new Date() - new Date(counterStart)` is the `elapsed` parameter;
  - the clock's `dayjs().format(...)` results are parameters.
- Day differences: the day numbers ignore the time of day, which `date.diff(start, "days")` can see through its truncation of a partial day.
- `widthStartByTime`: floating-point layout over luxon durations.
- Leaflet and FontAwesome UI: `generateIcon`, `mapMe`, `openAlerts`; icons are an enumeration.
- Vue reactivity and event-bus wiring (`$set`, `$nextTick`, `$on`, `incidentOpened`). The handlers `onUnitStatusChanged`/`onUnitHomeChanged` are registered but not defined in the component, so they are not modelled.
- Alert escalation: no such code is in the component files.
- Bootstrap and configuration: `main.js`, the router, `config.js`. The logger's timestamp and `process.env` reads are parameters, and console output is returned as a list of calls.
- Loose `==` between string and numeric ids. Ids are one `Value` type with plain equality, and a JavaScript object key's coercion to string in the swim-lane positions map is not modelled.
- `Object.entries` puts integer-like keys first. Unit objects are modelled as entry lists in their own order.
- `GetIncidentIcon`: inherited prototype keys of the icon map (`callType` "toString" and the like) are not modelled.
- Case mapping is ASCII-only. Non-ASCII letters keep their case, so a `VUE_APP_LOG_LEVEL` such as "ınfo" (dotless i), which JavaScript upper-cases to "INFO", is not recognised here.
- `Number()` and `parseInt` read decimal integers only: hexadecimal, fractions and exponents are left out, and numbers are integers everywhere except the temperature conversion (the timer's counter is whole milliseconds, which also leaves out NaN).
- TelestaffView.ConvertC2F, TelestaffView.ConvertC2FInverse: the conversion is exact arithmetic over `real`. JavaScript computes in IEEE doubles, whose rounding is not modelled: there the round trip can be off in the last places (1.1 comes back as 1.1000000000000023).
- IncidentBoard.Board: the handlers against a `null` list return `ok == false` and change nothing, where the source throws a TypeError. `onIncidentUnitUpdated` likewise returns `ok == false` where `units.forEach` throws, keeping the incidents it had already handled.
- IncidentBoard.SetField: update values are primitives (the model's `Value`), so writing `units` always leaves a non-array; an update that carries a new array of units, or an object for any other field, is not modelled.
- DigitalTimer.Timer.Warn: the class uses the corrected `TimerWarn` (see Findings); the component as written computes `TimerWarnAsWritten`, which for any warn threshold of at least 1 is just the colour-coding flag.
- DashboardHub.HubLifecycle.StopSignalR: the stop promise chain is modelled as completing at once. A close that arrives between `stop()` and the chain's last step is not modelled.
- TelestaffSwimUtils.SwimUtils.MapRoster: `units` and `stationRoster.Unit` share unit objects, so the regrouped positions are also visible through the station roster. The model returns the regrouped units as values; the activities read only titles and notes, which the regrouping does not change.
- TelestaffSwimUtils.MapRosterSpec: every throw inside `mapRoster` is reported as one `TypeError` message, not the engine's exact text.
- TelestaffSwimUtils.SwimUtils.FetchRoster: the station is stored and the reply mapped in one step. In the source `utils.station` is one module-wide field that `mapRoster` reads only when the fetch resolves, so a second `fetchRoster` started in between (a second swim-lane view on the page, or a re-poll overlapping a slow fetch) makes the first reply be filtered by the second station, or throw where that station is missing. Such interleavings are not modelled.
- TelestaffSwimUtils.BuildPositions: position ids are plain keys. The source's `person["id"] in positions` also sees keys a plain object inherits ("constructor", "toString"); for such an id no group is created and the following `.push` throws. That case is not modelled.
- StaffingRules.GetShift, TelestaffSwimUtils.MapRosterSpec: a day always has a platoon, so the model never reaches the `thisShift.toUpperCase()` TypeError that an undefined shift letter would give; the branch is kept in `MapRosterSpec` for completeness.
- TelestaffView.StaffView.Staff, TelestaffSwimView.SwimStaffView.Staff: the intermediate `loading` state shown while the load is pending is not observable in the model; only the settled state is stated.
- StaffingRules.CleanTitle: its contract states only that the result is trimmed; that it is the lower-cased, mark-free input is its definition, used by `GetRankIsFirstMatch`.
- IncidentsUtils.ParseShiftTimes: the PM conversion is stated for well-formed dispatch times only. For other inputs (for instance a missing minute part, which prints "undefined") the function follows the source, but no lemma states it.
- TelestaffSwimView.FormatShiftTime: stated for the three tours only; any other pair falls through to the staffing view's `FormatTime` contract.

## Findings

| source | as written | input that shows it | evidently intended | confidence | as-written member | corrected member |
|---|---|---|---|---|---|---|
| src/components/VueDigitalTimer/script.js:68-70 | `maxOkayTime < counter <= maxWarnTime` compares the boolean `maxOkayTime < counter`, as 0 or 1, with `maxWarnTime`, so for any warn threshold of at least 1 `timerWarn` equals `colorCodeTimer` | colour on, default thresholds 60000 and 90000, counter 30000 (okay and warn both true) or 120000 (warn and danger both true) | warn exactly when `maxOkayTime < counter && counter <= maxWarnTime`, so that okay, warn and danger partition the counter | high; not executed | DigitalTimer.TimerWarnAsWrittenOverlaps | DigitalTimer.TimerWarn |
