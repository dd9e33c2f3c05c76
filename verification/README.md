# Mooring lines: a verified model of the store and its client state machines

The service keeps the mooring lines of a fleet: winches with one to six drums, storage
places, lines and their components, turns, inspections, and an append-only outbox from
which other systems are to follow along. This project models its write transactions as a
state machine over the tables of the database, together with the reads that summarise
them and three small state machines of the web client, and proves what holds of every
run and of every input.

`Schema` holds the tables, the CHECKs, the unique indexes and the foreign-key actions.
A transaction works on a copy of the tables (`Tables`, a value) and commits by assigning
it to the field of class `Store` (`Store.dfy`); an error returns before that assignment.
Each operation is first a function on the tables (`Lines`, `Layout`, `Turning`,
`Inspections`); the methods of the store, with the loops of the source where it has
loops, are proved equal to those functions, and the theorems are about the functions,
about single steps and about whole runs (`Runs`). Query rows without a decisive ORDER BY
and keys of a Go map are visited in arbitrary order.

| file | what it is about |
|---|---|
| `Schema`, `Common`, `Conditions`, `Derive` | tables and constraints, severities, days and durations |
| `Lines`, `Layout`, `Turning`, `Inspections` | the write operations as functions |
| `LayoutMethods`, `Store` | the same operations as transactions with loops |
| `LayoutEffects`, `LayoutRefusals`, `LayoutExact`, `LayoutCounts` | what saving a deck layout does, and when it is refused |
| `Runs`, `Histories`, `Replay`, `Ages`, `Delivery` | whole runs: invariants, what changes which column, outbox replay, age conservation, at-least-once delivery |
| `Interleaving`, `Overlaps`, `OverlapReplay` | moves and saves that overlap: what stays safe, what is lost, and what the outbox is then worth |
| `ReadModels`, `Agreement`, `Dashboard`, `Capacity`, `RoundTrip`, `Reports` | the layout, the dashboard counts, how many lines fit, reading and saving back, the condition report |
| `Pickers`, `Deck`, `DeckEffects`, `Editing`, `LoginLimiter` | what the client offers, how it edits a draft, names winches and sends it, how it limits logins |
| `Scenarios` | short runs from the empty store into states in which a bound or an offer fails |

## What turned out not to hold

Each of these is a lemma with the failing family, beside the exact condition under which
the property does hold.

- A layout request that names a winch of another vessel updates no row but still adjusts
  that winch's drums (`LayoutCounts.ForeignSaveBreaksCounts`). Winches keep as many drums
  as their rows say exactly when no request does that (`LayoutCounts.SaveKeepsDrumCounts`).
  No such request moves a line.
- Saving an unedited layout then may change drums, and may even be refused
  (`Scenarios.UneditedSaveRefused`). It changes nothing exactly when the vessel's winches
  have the drums their rows say (`RoundTrip.SaveUneditedExactly`), and is refused exactly
  when a drum beyond drum_count holds a line (`RoundTrip.UneditedRefusedExactly`).
- A turn whose active side has no change date freezes the days since installation, which
  the live age did not count: ages are continuous at a turn exactly otherwise
  (`Turning.TurnIsContinuous`).
- Days are counted through a 64-bit duration, so each service interval counts for at most
  106751 days, and days before the active side's change date do not count: ages are
  conserved over a run of turns under exactly the condition of `Ages.AgeConservation`, and
  otherwise differ by the days that `Ages.AgesFallShortExactly` says. The age since
  installation is clamped as a whole, and the zero date counts as no date there but not
  when a turn freezes days; when the two agree is `Ages.RegisteredLineAges`.
- A save that decided to drop an empty drum still drops it when a line has moved onto it
  in the meantime (`Overlaps.OverlapDisplaces`). The constraints all survive, the placement
  does not. A save displaces a line exactly in this way
  (`OverlapReplay.DisplacedByMoveExactly`), and the outbox is then wrong about the line
  exactly because the place it names is gone (`OverlapReplay.OutboxMisplacesExactly`); in
  serial runs it never is (`Replay.OutboxRebuildsStore`).
- A backdated inspection makes the condition report and the stored condition differ
  (`Reports.BackdatedReportDiffers`), exactly when an inspection with another condition is
  on top of the report and not dated before it (`Reports.LogIsReportedExactly`,
  `Reports.ReceiptIsReportedExactly`).
- After a save by another vessel, more lines can be active than drum_count sums to
  (`Scenarios.ActiveLinesOverflow`). The bound holds for every placement of lines on a deck
  exactly when the layout lists no more drums than that sum
  (`Capacity.ActiveLinesFitExactly`).
- A component may sit on a drum, but the list of lines leaves components out, so the
  pickers offer that drum (`Scenarios.PickerOffersTakenDrum`) and a move to it is refused,
  for this reason only (`Pickers.DrumOffersAreExact`).
- An update of a draft winch that changed its name or position without renumbering would
  spoil the auto names; the editor never sends one (`Deck.OtherPatchesBreak`).

docs/architecture.md says at line 104 that side accruals are derived in queries and never
stored. The code stores the frozen part in two columns, as line 106 there also says; the
model follows the code.

## Model

| member | source | states |
|---|---|---|
| `LayoutExact.SaveLayoutExact` | api/internal/store/vessel.go:187-336 | For distinct ids owned by the vessel and rows within the CHECKs, saving fails if and only if a line sits on a drum or storage the request drops, always with ErrOccupied; otherwise the vessel's winches and storages are exactly the request, each winch has exactly the drums 1..n, surviving drums keep their ids, and other vessels and all lines are untouched. |
| `LayoutRefusals.SaveFailsExactly` | api/internal/store/vessel.go:187-290 | For any request that names only ids handed out before - foreign, deleted or repeated ones included - a save is refused if and only if a CHECK or a foreign key stops an entry, an entry shrinks a winch below a held drum, or a winch or storage of the vessel that is not named holds a line; with a constraint violation in the first case and ErrOccupied in the others. |
| `LayoutRefusals.EntryFailsExactly` | api/internal/store/vessel.go:194-220 | One winch entry fails exactly if its row is not taken, if it asks for a seventh drum of another vessel's winch or any drum of a winch that is gone, or if it shrinks its winch below a held drum. |
| `LayoutRefusals.StoragesFailExactly` | api/internal/store/vessel.go:245-265 | The storage entries fail exactly if one that is written has a station off the CHECK; an id that is gone or not the vessel's never stops a save. |
| `LayoutRefusals.StoragesAreAccepted` | api/internal/store/vessel.go:257-265 | On an existing vessel, entries on the two real stations are all accepted, whatever ids they name. |
| `LayoutExact.DisplacedDrum` | api/internal/store/vessel.go:319-333 | A held drum is not kept by the request exactly when its winch shrinks below it or is not named at all. |
| `LayoutEffects.SaveDisplacesNothing` | api/internal/store/vessel.go:187-290 | For every request, foreign, unknown and repeated ids included, a successful save leaves all lines, inspections and turns alone, appends exactly one outbox row and keeps every constraint. |
| `Layout.AdjustDrumsEffect` | api/internal/store/vessel.go:294-336 | After a successful adjustment the winch has exactly the drums 1..target; drums within the target keep their rows, held drums survive, no other winch is touched. |
| `Layout.AdjustDrumsFails` | api/internal/store/vessel.go:319-333 | With at most six drums asked of an existing winch, adjusting fails exactly when a surplus drum holds a line, with ErrOccupied. |
| `Layout.AddDrumsFails` | api/internal/store/vessel.go:311-318 | The insert loop fails exactly when some missing index has no winch to refer to or exceeds six. |
| `LayoutCounts.SaveKeepsDrumCounts` | api/internal/store/vessel.go:207-218 | A successful save leaves every winch with as many drums as its drum_count if and only if, by its last mention in the request, no winch of another vessel is named with a count that is not its own. |
| `LayoutCounts.OwnSaveKeepsDrumCounts` | api/internal/store/vessel.go:187-336 | A request that names no winch of another vessel keeps every winch at exactly its drum_count drums, repeated and unknown ids included. |
| `LayoutCounts.ForeignSaveBreaksCounts` | api/internal/store/vessel.go:207-218 | The failing family: an accepted request of one vessel that names another vessel's winch changes no winch row and still gives that winch a drum beyond its drum_count. |
| `LayoutMethods.InsertMissing` | api/internal/store/vessel.go:311-318 | The insert loop of adjustDrums computes the specified drum table or its constraint error. |
| `LayoutMethods.RemoveSurplus` | api/internal/store/vessel.go:319-333 | For any iteration order of the Go map, the delete loop removes the whole surplus if none of it is held and fails with ErrOccupied otherwise. |
| `LayoutMethods.AdjustDrums` | api/internal/store/vessel.go:294-336 | The three loops together equal the order-free specification of adjusting a winch. |
| `LayoutMethods.UpsertWinches` | api/internal/store/vessel.go:194-220 | The upsert loop over the winches equals the specification, stopping at the first error. |
| `LayoutMethods.RemoveWinches` | api/internal/store/vessel.go:222-243 | Removing unnamed winches row by row, in any order, with the cascade to drums, equals removing them at once. |
| `LayoutMethods.UpsertStorages` | api/internal/store/vessel.go:245-265 | The upsert loop over the storages equals the specification; an id that is not the vessel's updates nothing. |
| `LayoutMethods.RemoveStorages` | api/internal/store/vessel.go:266-284 | Removing unnamed storages row by row, in any order, equals removing them at once, guarded by occupancy. |
| `StoreService.Store.SaveLayout` | api/internal/store/vessel.go:187-290 | The transaction commits the specified result or leaves the tables as they were; lines never change. |
| `Lines.MoveSucceedsExactly` | api/internal/store/lines.go:256-304 | A move succeeds if and only if exactly one destination is named, it exists on the line's own vessel and, for a drum, no other line sits on it. |
| `Lines.MoveFailsExactly` | api/internal/store/lines.go:256-304 | Which error a refused move gives: not found for an unknown line under a well-formed request, occupied exactly for a drum of the line's vessel that another line holds, an invalid target otherwise. |
| `Lines.CreateSucceedsExactly` | api/internal/store/lines.go:211-252 | A line is registered exactly if product, vessel and parent exist, status and side are on their scales and no line has the serial; an unknown product is not found. |
| `Lines.CreatedShowsRequest` | api/internal/store/lines.go:211-252 | The new row shows the request column by column: the status asked for, active without one; the side asked for, n/a without one; the product's flag; no place, ages or condition. No other line changes. |
| `Lines.ComponentShowsRequest` | api/internal/httpapi/lines.go:104-108 | A component is accepted exactly when a line would be on its parent's vessel, shows the request in the same way and points to its parent. |
| `Lines.MoveLineKeepsInvariant` | api/internal/store/lines.go:280-302 | A successful move keeps every constraint, with the status active on a drum and spare in storage. |
| `Lines.CreateLineKeepsInvariant` | api/internal/store/lines.go:211-252 | Registering a line, or a component on its parent's vessel, keeps every constraint. |
| `StoreService.Store.CreateLine` | api/internal/store/lines.go:211-252 | The transaction commits the specified new row and outbox row, or changes nothing. |
| `StoreService.Store.AddComponent` | api/internal/httpapi/lines.go:104-108 | The endpoint's read of the parent followed by the insert registers the component on the parent's vessel, or changes nothing. |
| `StoreService.Store.MoveLine` | api/internal/store/lines.go:256-304 | The transaction commits the specified move or changes nothing. |
| `Schema.ForestIsAcyclic` | api/db/migrations/0004_lines.up.sql:36-36 | Following parent links from a line never returns to it, at any distance, and never leaves the vessel. |
| `Schema.WriteLineKeepsInvariant` | api/db/migrations/0004_lines.up.sql:3-51 | A step that writes one acceptable row of mooring_line and appends to the logs keeps all constraints of the schema. |
| `Schema.DeleteFreeWinches` | api/db/migrations/0003_vessel_layout.up.sql:39-44 | The cascade of a winch whose drums hold nothing, with SET NULL on the lines, touches no line. |
| `Runs.StepKeepsInvariant` | api/db/migrations/0004_lines.up.sql:3-51 | Every request, whether it commits or fails, keeps all constraints of the schema and the placement rules. |
| `Runs.EveryReachableState` | api/internal/store/lines.go:211-309 | After any run from the empty store: a line has one location at most, a drum one line at most, placed lines are on their own vessel, active on a drum and spare in storage, and components form an acyclic forest within a vessel. |
| `Runs.DrumCountsHold` | api/internal/store/vessel.go:187-336 | After any run whose saves resize no other vessel's winch, every winch has exactly the drums 1..drum_count. |
| `Runs.ConditionsAreStored` | api/internal/store/inspections.go:84-87 | After any run, the stored condition of each line is that of its last recorded inspection, and empty if there is none. |
| `Histories.OnlyMovesMove` | api/internal/store/lines.go:256-304 | Over any request, only a successful move of the line itself changes its status or place, to those of the destination, and none changes what it was registered with. |
| `Histories.IdentityStays` | api/internal/store/lines.go:233-241 | Over any run a line keeps vessel, product, name, serial, turnable flag, installation date and parent. |
| `Histories.RegisteredIsAssignable` | web/src/features/deck/WinchPanel.tsx:24-28 | A line just registered is a candidate of the assign picker if and only if it was registered as a spare. |
| `Histories.FlagsFromCatalogue` | api/internal/store/lines.go:225-229 | After any run from the empty store a line is turnable exactly if its product is, and every row of the turn log is of such a line and ends on side A or B. |
| `Histories.OutboxRowsBelong` | api/internal/store/outbox.go:13-23 | After any run every outbox row carries the vessel of the line or layout it is about. |
| `Histories.KeysAreUnique` | api/db/migrations/0006_inspections.up.sql:3-19 | After any run no two inspections and no two turns share an id. |
| `Histories.EveryRowHasItsRequest` | api/internal/store/inspections.go:63-167 | After any run the inspections are, one by one and in order, what the requests that recorded them asked for: manual without an external id, or from the API with the id of its message; dated as given or now. |
| `Histories.EveryRowIsOnScale` | api/db/migrations/0004_lines.up.sql:3-51 | After any run every station, orientation, drive, drum index, status, side and condition is on the scale of its column. |
| `Replay.OutboxRebuildsStore` | api/internal/store/outbox.go:13-23 | After any run from the empty store, folding the outbox alone gives exactly the registered lines with their vessels and serials and, of each, its drum or storage, its condition, and its side once it has been turned. |
| `Replay.OutboxListsEvents` | api/internal/store/inspections.go:91-95 | After any run from the empty store, the inspection and turn tables are, row for row and in order, the events of those kinds in the outbox: same ids, lines, vessels, conditions and sides. |
| `Replay.OneRowPerChange` | api/internal/store/lines.go:299-302 | A request appends exactly one outbox row if it changes the tables and none otherwise, and it changes them unless it failed or was a duplicate delivery. |
| `Turning.TurnIsContinuous` | api/internal/store/turn.go:44-83 | Both live ages at the instant of a turn are the same before and after it if and only if the side in use has a change date, or the turn has nothing to freeze: no installation date before today either. |
| `Turning.TurnNeverLosesAge` | api/internal/store/turn.go:44-83 | In no case does a turn lower the live age of either side. |
| `Turning.TurnSucceedsExactly` | api/internal/store/turn.go:40-42 | A turn succeeds if and only if the line exists, its product can be turned and it is on side A or B; a known line that fails this is not turnable. |
| `Turning.TurnedColumns` | api/internal/store/turn.go:62-83 | A turn puts the other side in service as of today and adds to the age of the side it leaves; every other column stays. |
| `Turning.TurnExplained` | api/internal/store/turn.go:62-95 | One more turn extends the explanation of the row by its log: sides alternate, the last entry names the current side, each accumulator grows by the closed interval of its side. |
| `Turning.IntervalsTile` | api/db/migrations/0005_turning.up.sql:3-14 | In a chronological log the intervals frozen on both sides tile the time from the first service date to the last entry, less exactly the days by which an interval exceeds a Duration. |
| `Turning.LiveAgesTile` | api/internal/domain/derive.go:32-38 | Given such a log, the two live ages together are the initial accumulators plus every day since the first service date, less exactly those days. |
| `Turning.KeptExactly` | api/internal/domain/derive.go:13-19 | Clamping each service interval counts as much as clamping the whole time if and only if the whole needs no clamping or falls into one interval. |
| `Turning.TurnLineKeepsInvariant` | api/internal/store/turn.go:16-106 | Turning a line keeps every constraint of the schema. |
| `StoreService.Store.TurnLine` | api/internal/store/turn.go:16-106 | The transaction commits the specified side, ages, change date, log entry and outbox row, or changes nothing. |
| `Derive.DaysBetweenIsClamp` | api/internal/domain/derive.go:13-19 | For every time of day, the hour-based day count from a midnight equals the difference of day numbers, clamped to 0 below and to the range of a Duration above. |
| `Derive.ElapsedIsClamp` | api/internal/store/turn.go:47-60 | The days frozen by a turn are the clamped difference of day numbers from the change date, or from the installation date if there is none. |
| `Ages.OnlyTurnsTurn` | api/internal/store/turn.go:62-95 | In any state, only a successful turn of the line itself changes its side, ages, change dates or turn log, and it does so by exactly one entry. |
| `Ages.RunExplained` | api/internal/store/turn.go:62-95 | Over any run, a line's accumulators, change dates and current side follow in closed form from its starting row and its own turn log. |
| `Ages.AgeConservation` | api/internal/domain/derive.go:32-38 | Over any run whose turns read a clock that does not go back, for any non-zero change date c of the active side: if c is not after the first turn, live age A plus live age B at any later time is the initial accumulators plus the whole days since c if and only if no service interval exceeds 106751 days; if c is later, if and only if the days lost to that limit equal those from the first turn to c. |
| `Ages.AgesFallShortExactly` | api/internal/store/turn.go:47-60 | In every such run that sum grows by the days since c, or since the first turn if that is earlier, less exactly the days that service intervals hold beyond 106751 each. |
| `Ages.RegisteredLineAges` | api/internal/store/lines.go:211-252 | A line or component registered on side A or B with an installation date: before any turn its two live ages sum to 0; after any number of turns they sum to its age since installation if and only if that date is not the zero date and the time since is at most 106751 days or a single service interval. |
| `Ages.TurnedAgesExactly` | api/internal/store/turn.go:47-60 | The same exact condition for any row that a turn log explains from an installation date and empty accumulators. |
| `Inspections.DuplicateFindsOneRow` | api/internal/store/inspections.go:153-162 | The duplicate branch returns a row of the table carrying that external id, and no other row carries it. |
| `Inspections.RecordKeepsInvariant` | api/internal/store/inspections.go:63-102 | Recording an inspection under an id not seen before keeps every constraint. |
| `Inspections.IngestKeepsInvariant` | api/db/migrations/0006_inspections.up.sql:18-19 | Ingesting keeps every constraint, in particular one row per external id. |
| `Inspections.ReportShowsStoredCondition` | api/internal/store/inspections.go:229-242 | Where a line's inspections were recorded in increasing inspected_at, the report can print the stored condition and nothing else. |
| `Inspections.RecordIsReportedExactly` | api/internal/store/inspections.go:229-242 | Recording an inspection leaves the report certain to print the condition just stored if and only if no inspection then on top of the line, with another condition, is dated at or after the new one. |
| `Inspections.ReportAgreesExactly` | api/internal/store/inspections.go:229-242 | In any state the report is certain to print the stored condition if and only if the record made last for the line satisfied that condition when it was made. |
| `Histories.LogSucceedsExactly` | api/internal/store/inspections.go:63-102 | A manual record is accepted exactly for a known line and a condition on the scale. |
| `Histories.ReceiptSucceedsExactly` | api/internal/store/inspections.go:107-167 | A message is accepted exactly for a known serial and a condition on the scale, duplicates included. |
| `StoreService.Store.LogInspection` | api/internal/store/inspections.go:63-102 | The transaction appends the row, stores the condition and writes the outbox as specified, or changes nothing. |
| `StoreService.Store.IngestInspection` | api/internal/store/inspections.go:107-167 | The transaction records the message once, or finds the existing row and changes nothing, or fails and changes nothing. |
| `Delivery.AtLeastOnceIsExactlyOnce` | api/internal/store/inspections.go:107-167 | For any requests with retries anywhere, the tables at the end, outbox and conditions included, equal those of the run without the retries. |
| `Delivery.IngestedExactly` | api/db/migrations/0006_inspections.up.sql:18-19 | An external id has a row after a run exactly when it had one before or some request delivered it for a known serial with a valid condition. |
| `Delivery.RetryReturnsFirstRow` | api/internal/store/inspections.go:154-161 | Over any run, a later delivery of an id returns the very row that the first accepted delivery recorded, and changes nothing. |
| `Delivery.EmptyIdsAreNeverMerged` | api/internal/store/inspections.go:124-132 | Every known message without an external id is a new row. |
| `Reports.LatestRow` | api/internal/store/inspections.go:229-242 | One line's report row shows the condition and date of a latest inspection, or the stored condition and no date. |
| `Reports.ConditionReport` | api/internal/store/inspections.go:221-263 | The report has each top-level line of the vessel, or of the fleet, exactly once; an unknown vessel is not found. |
| `Reports.ReportCoversTopLines` | api/internal/store/inspections.go:229-242 | A line has a row of the report if and only if it is no component and, where a vessel is given, of that vessel. |
| `Reports.ReportMatchesStored` | api/internal/store/inspections.go:221-263 | Every row of a line without backdated records prints its stored condition, which is that of its last recorded inspection. |
| `Reports.LogIsReportedExactly` | api/internal/store/inspections.go:63-102 | A manual record shows in the report with certainty if and only if it is not dated at or before a differing inspection on top of its line. |
| `Reports.ReceiptIsReportedExactly` | api/internal/store/inspections.go:143-147 | The same for a message that is recorded. |
| `Reports.RunIsReportedExactly` | api/internal/store/inspections.go:229-242 | After any run from the empty store, stored condition and report agree for a line if and only if its last record was not overtaken by an earlier one of another condition. |
| `Reports.BackdatedReportDiffers` | api/internal/store/inspections.go:229-242 | From any valid state, one backdated record makes the report print only the earlier condition while the later one is stored. |
| `ReadModels.ReadWinches` | api/internal/store/vessel.go:53-72 | Lists each winch of the vessel exactly once, with no drums yet. |
| `ReadModels.AppendInOrder` | api/internal/store/vessel.go:84-97 | Appending rows ordered by idx gives every winch all of its drums in increasing idx. |
| `ReadModels.RollUp` | api/internal/store/vessel.go:127-147 | One pass over the top-level lines, in any order, leaves the number of lines of each drum and storage, the conditions of each winch, and each storage's worst condition. |
| `ReadModels.Finish` | api/internal/store/vessel.go:148-155 | Each drum entry gets its line count and each winch the worst condition of the lines on it. |
| `ReadModels.GetLayout` | api/internal/store/vessel.go:50-157 | The layout shows each winch, drum and storage of the vessel exactly once, with the number of top-level lines on it and the worst of their conditions. |
| `Agreement.ReadModelsAgree` | api/internal/store/overview.go:52-67 | The drum counts of the layout sum to the dashboard's active lines; drum, storage and unplaced lines together are all top-level lines. |
| `Agreement.EachDrumShowsOne` | api/internal/store/vessel.go:149-153 | Each drum of the layout shows 0 or 1 lines. |
| `Agreement.ActiveLinesHaveDrums` | api/internal/store/overview.go:52-67 | In every valid state active lines are at most the drums the layout lists. |
| `Agreement.ActiveLinesFit` | api/internal/store/overview.go:52-67 | If the layout lists no more drums than drum_count sums to, active lines are at most that sum. |
| `Agreement.MatchingActiveLinesFit` | api/internal/store/overview.go:52-67 | In particular when the vessel's own winches have the drums their rows say. |
| `Capacity.ActiveLinesFitExactly` | api/internal/store/overview.go:52-67 | On a given deck, every placement of lines keeps the active lines within the sum of drum_count if and only if the layout lists no more drums than that sum. |
| `Capacity.EntriesAreOwnDrums` | api/internal/store/vessel.go:75-97 | The layout lists each drum of the vessel exactly once. |
| `Agreement.AttentionIsShown` | api/internal/store/overview.go:52-67 | The dashboard counts a line at some severity (Action, needing attention, any) if and only if the layout shows a place at least that severe, or an unplaced line is. |
| `Dashboard.CountsExactly` | api/internal/store/overview.go:52-67 | The counts of the dashboard are how many of the vessel's top-level lines have each condition, and how many sit on a drum. |
| `Dashboard.RecordMovesCount` | api/internal/store/overview.go:52-67 | Recording an inspection moves a top-level line of the vessel from the count of its old condition to that of the new one, and changes no other count. |
| `Scenarios.ActiveLinesOverflow` | api/internal/store/vessel.go:207-218 | A run from the empty store, with a save by another vessel and two moves, after which two lines are active and drum_count sums to one. |
| `Agreement.SameLayout` | api/internal/store/vessel.go:50-157 | In every valid state two reads of the same tables show the same winches, drums and storages, up to the order of rows. |
| `Conditions.WorstOf` | api/internal/domain/condition.go:31-41 | The loop returns the condition of greatest severity among its arguments, the empty one if there are none. |
| `Conditions.RunningWorstIsWorst` | api/internal/store/vessel.go:142-147 | Folding the two-argument Worst over the lines equals one call on all of them. |
| `Conditions.WorstIgnoresOrder` | api/internal/domain/condition.go:31-41 | The worst condition depends only on which conditions occur. |
| `RoundTrip.SaveUnedited` | web/src/features/deck/DeckPage.tsx:76-89 | Saving a layout exactly as it was read succeeds and changes nothing but one outbox row, if the vessel's winches have the drums their rows say. |
| `RoundTrip.SaveUneditedExactly` | api/internal/store/vessel.go:187-290 | That condition is exact: the round trip succeeds and changes nothing if and only if each winch of the vessel has exactly the drums 1..drum_count. |
| `RoundTrip.UneditedRefusedExactly` | api/internal/store/vessel.go:319-333 | The unedited save is refused, with ErrOccupied, if and only if some drum of the vessel beyond its winch's drum_count holds a line. |
| `Scenarios.UneditedSaveRefused` | api/internal/store/vessel.go:319-333 | A run from the empty store, with a save by another vessel and two moves, after which the unedited save is refused. |
| `RoundTrip.ReadBackUnedited` | api/internal/store/vessel.go:50-157 | A layout read after the round trip shows the same winches, drums and storages, if the vessel's winches have the drums their rows say. |
| `RoundTrip.ReadBackEdited` | api/internal/store/vessel.go:50-157 | After any accepted save of own, well-formed entries every layout read lists exactly those entries: each winch with drums 1..drum_count in order, kept drums under their ids, each place with the lines it had, new drums empty. |
| `Interleaving.OverlapIsSafe` | api/internal/store/lines.go:260-302 | In every interleaving of moves and saves that read one committed state and write into another, together with the other requests: no drum holds two lines, no line two places, and placed lines are on their own vessel with the status of the place. |
| `Interleaving.StepKeepsWorld` | api/internal/store/vessel.go:227-243 | Every begin, commit, rollback or other request keeps the constraints and what the transactions in flight rely on. |
| `Interleaving.CommitSaveKeepsInvariant` | api/db/migrations/0004_lines.up.sql:33-34 | Committing any plan of inserts, updates and deletes of a save into any later state keeps all constraints, through CASCADE and SET NULL. |
| `Interleaving.CommitMoveKeepsInvariant` | api/db/migrations/0004_lines.up.sql:49-51 | Committing a move checked against an earlier state is safe: its drum is either gone, taken, or still on the line's vessel. |
| `Interleaving.CommitSaveSucceedsExactly` | api/db/migrations/0003_vessel_layout.up.sql:39-44 | A save that has decided is refused exactly if a new drum is of a winch that is gone by then, is beyond six, or is there already; rows to update or delete that are gone do not stop it. |
| `Interleaving.CommitSaveWrites` | api/internal/store/vessel.go:194-290 | Committing it writes and deletes, row by row, what it decided and nothing else: no row of another vessel is updated, and the drums of a deleted winch go with it. |
| `Overlaps.DisplacedExactly` | api/db/migrations/0004_lines.up.sql:33-34 | A commit takes a line off its place exactly when it deletes the place, directly or by cascade, and alters nothing else of the line. |
| `Interleaving.CommitMoveExactly` | api/internal/store/lines.go:280-302 | A move that has read its target is refused exactly if line or target are gone by then or another line is on the drum; otherwise the line is placed there, active or spare. |
| `Overlaps.SerialSave` | api/internal/store/vessel.go:187-290 | A save decided on the tables it reads is among the steps of the interleaving model, and committed at once it is the serial save. |
| `Overlaps.SerialMove` | api/internal/store/lines.go:256-304 | A move committed at once after its reads is the serial move. |
| `OverlapReplay.DisplacedByMoveExactly` | api/internal/store/vessel.go:227-243 | In every interleaving, a save whose dropped places were free when it read takes a line off a place if and only if it deletes the place and, between its reads and its commit, a move put the line there and the line stayed. |
| `OverlapReplay.GuardedPlanIsFree` | api/internal/store/vessel.go:319-333 | The occupancy guards of a save make sure that what it plans to delete holds no line when it reads. |
| `OverlapReplay.OutboxUnderOverlap` | api/internal/store/outbox.go:13-23 | In every interleaving from the empty store, folding the outbox gives every line's condition, side, serial and vessel, and its drum or storage if that place still exists; a line whose logged place is gone is nowhere. |
| `OverlapReplay.OutboxMisplacesExactly` | api/internal/store/lines.go:299-302 | So the outbox is wrong about a line's drum or storage if and only if it names a place that is not there any more. |
| `Overlaps.OverlapDisplaces` | api/internal/store/vessel.go:319-333 | Every save that drops a drum can displace: if a line moves to that drum between the reads and the commit, both succeed, the line is nowhere, and the outbox places it on a drum that is gone. |
| `Pickers.AssignableMeansSpare` | web/src/features/deck/WinchPanel.tsx:24-28 | In every valid state a line is assignable exactly when it is spare and off every drum; an active line in storage does not occur. |
| `Pickers.DrumOffersAreExact` | web/src/features/deck/WinchPanel.tsx:177-182 | With a complete, current list, the picker offers exactly the drums, other than the line's own, to which the store accepts the move, and besides them only drums that hold a component. |
| `Scenarios.PickerOffersTakenDrum` | web/src/features/deck/WinchPanel.tsx:177-182 | A run from the empty store after which, with any complete, current list and layout, the picker offers a drum that holds a component and the store answers that it is occupied. |
| `Pickers.StorageOffersAreExact` | web/src/features/deck/WinchPanel.tsx:184-186 | The picker offers exactly the storages, other than the line's own, to which the store accepts the move. |
| `Pickers.AssignOffersAreExact` | web/src/features/deck/WinchPanel.tsx:230-232 | Assigning a candidate to a drum shown empty is accepted if and only if no component sits on it. |
| `Deck.RenumberAuto` | web/src/features/deck/DeckPage.tsx:41-53 | The loop gives every auto-named winch its rank within its station and side, in array order, and changes nothing else. |
| `Deck.LabelsAreInjective` | web/src/features/deck/DeckPage.tsx:51-51 | Two auto labels are equal only for the same station, side and number; decimal printing is injective. |
| `Deck.RenumberingIsIdempotent` | web/src/features/deck/DeckPage.tsx:41-53 | Renumbering twice is renumbering once. |
| `Deck.OnlyAutoLabelsChange` | web/src/features/deck/DeckPage.tsx:46-51 | Renumbering alters only labels, and no hand-named one. |
| `Deck.NumbersHaveNoGaps` | web/src/features/deck/DeckPage.tsx:41-53 | The auto winches of a group carry all numbers 1..k. |
| `Deck.AutoLabelsAreDistinct` | web/src/features/deck/DeckPage.tsx:41-53 | After renumbering no two auto-named winches share a label. |
| `DeckEffects.RenumberedTellsPosition` | web/src/features/deck/DeckPage.tsx:28-53 | Every automatic label tells where its winch stands: FWD or AFT by station, P below 0.45, S above 0.55 and C between, and as its number how many auto-named winches of that spot there are up to it. |
| `DeckEffects.AddEffect` | web/src/features/deck/DeckPage.tsx:117-128 | A new winch stands in the middle of its station with two drums, electric and unrotated, labelled by its position; the others keep everything but automatic labels. |
| `DeckEffects.DragEffect` | web/src/features/deck/DeckPage.tsx:98-113 | A drag puts the winch where it ends and moves no other. |
| `DeckEffects.ChangeEffect` | web/src/features/deck/DeckPage.tsx:138-149 | An update sets exactly the columns it names, on that winch alone, and rewrites automatic labels only if it sets the station or the naming. |
| `DeckEffects.RemoveEffect` | web/src/features/deck/DeckPage.tsx:152-158 | A removal takes out that winch and keeps all others in order. |
| `DeckEffects.StorageEditEffect` | web/src/features/deck/DeckPage.tsx:129-158 | The same for storages: add, drag, update and remove touch only the one named, and no label is rewritten. |
| `DeckEffects.EditsInOrder` | web/src/features/deck/DeckPage.tsx:98-158 | Edits are applied one after the other: a session of edits is its first part followed by the rest. |
| `DeckEffects.OtherListUntouched` | web/src/features/deck/DeckPage.tsx:98-158 | But for a removal, an edit of a winch leaves the storages alone and the other way round. |
| `Deck.EditKeepsCanonical` | web/src/features/deck/DeckPage.tsx:98-158 | From a canonical draft each edit keeps it so, if an update that skips renumbering sets neither name nor position. |
| `Deck.EditMakesCanonical` | web/src/features/deck/DeckPage.tsx:98-158 | Adding, dragging and removing make any draft canonical. |
| `Deck.EditsKeepCanonical` | web/src/features/deck/DeckPage.tsx:252-306 | Any sequence of the page's edits keeps a canonical draft canonical and its auto labels distinct, the edits that skip renumbering included. |
| `Editing.SentUnedited` | web/src/features/deck/DeckPage.tsx:73-89 | A draft sent without edits is the layout that was read. |
| `Editing.PageSendsOwnRows` | web/src/features/deck/DeckPage.tsx:98-158 | After any edits of winches and storages, the request names distinct rows of the vessel, leaves temporary ids out and passes every check of the tables. |
| `Editing.SentShowsDraft` | web/src/features/deck/DeckPage.tsx:76-89 | The request carries every column of the draft, a stored row under its id and a new one without. |
| `Editing.SentLabelsTellPosition` | web/src/features/deck/DeckPage.tsx:76-89 | From a canonical draft, the automatic labels that are sent tell station and side of the row they are sent with. |
| `Editing.PageSaveExactly` | web/src/features/deck/DeckPage.tsx:76-89 | Every save the page can send is refused if and only if it drops a place that holds a line; otherwise every layout read afterwards shows the entries of the draft. |
| `Deck.OtherPatchesBreak` | web/src/features/deck/DeckPage.tsx:138-149 | Every other update breaks some canonical draft. |
| `LoginLimiter.LoginGuard.RunEffect` | web/src/app/auth/RequireAuth.tsx:89-105 | The effect logs in, blocks or clears as specified, and never unblocks. |
| `LoginLimiter.EffectCases` | web/src/app/auth/RequireAuth.tsx:89-105 | What one visit does: it logs in exactly if unauthenticated, without an error and with at most one recent attempt before it; an attempt that is recorded comes last and drops exactly the stale ones; signing in empties the list; loading changes nothing. |
| `LoginLimiter.SignInStartsOver` | web/src/app/auth/RequireAuth.tsx:89-93 | Whatever is stored, after a sign-in the next automatic login goes ahead and is the only stored attempt. |
| `LoginLimiter.LoginsSinceSignIn` | web/src/app/auth/RequireAuth.tsx:89-105 | In runs with sign-ins, at most three attempts are stored and any three logins with no sign-in between them span 30 000 ms. |
| `LoginLimiter.LoginsAreSpaced` | web/src/app/auth/RequireAuth.tsx:17-33 | In every run with a clock that does not go back and no clear, at most three attempts are stored, and any login and the second next are 30 000 ms apart. |
| `LoginLimiter.AnyThreeLoginsSpan` | web/src/app/auth/RequireAuth.tsx:89-105 | Any three automatic logins of such a run span at least 30 000 ms. |
| `LoginLimiter.BoundIsTight` | web/src/app/auth/RequireAuth.tsx:13-26 | Two logins at one instant and a third exactly 30 000 ms later do occur. |

## Left out

- Columns that no modelled operation reads: tag and certificate numbers, lengths, manufacture dates, notes, inspectors, per-side conditions, origin, created and updated times.
- Input validation of the HTTP layer: requests reach the store as they are, so the model admits counts, stations and statuses that the endpoints would refuse.
- Ids: a counter stands for the generator of fresh UUIDs. A request may name any number, but the interleaving assumes the ids of a save's new rows were never handed out before; malformed ids are not modelled.
- Vessels and the product catalogue: constant during a run.
- Order of rows by station and label or by name: the layout, the report and the pickers list their entries in any order; the order of drums within a winch is modelled.
- Text of error messages: errors are an enumeration of the sentinel errors, not-found and constraint violations.
- Coordinates are exact reals, and day counts use exact integer division: the rounding of float64 in Duration.Hours and of the database's `real` columns is not modelled.
- Width of the accumulator columns: ages are unbounded integers, where the database would refuse a value beyond 32 bits.
- Time zones other than UTC.
- The rest of the dashboard (average age, inspections and turns due, the attention, recent and trend lists), `NextInspectionDue` and `TurnDue`: sums and filters over the same rows.
- Listing, searching, paging, the logbook, photos, documents, CSV and PDF rendering: thin queries or library calls.
- `Interleaving.OverlapIsSafe`: a save's several reads are one decision with arbitrary content, which covers any reads; its writes and its commit are one step, so lock waits between statements are not modelled, and turns and inspections run whole.
- `LoginLimiter.LoginsAreSpaced`: session storage is assumed to hold the list it was given; unparsable content, the initial value of `blocked` and the manual retry button are not modelled.
- `LayoutRefusals.SaveFailsExactly`: a request is assumed not to name an id that was never handed out, which as a counter value could become the id of a new row; a fresh UUID cannot.
- `Editing.PageSaveExactly`: the draft is saved on the tables it was read from; a layout that changed in between is what `Interleaving` is about, and an id that is no longer there is ignored as in any request.
- Mouse capture, selection and the drum stepper's arithmetic: an edit carries the values it sets, with drum counts 1 to 6 and preset rotations as the controls produce them.
- Sign-in, sessions, group grants, files and the sync workers: a remote provider or plain plumbing.
