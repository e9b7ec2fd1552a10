# A verified model of the avalokiteshvara single-line production scheduler

This project models, in Dafny, the scheduling core of the avalokiteshvara
factory assistant. One production line runs one order at a time, in a
08:00–16:00 UTC shift every day. Sales orders (product, quantity,
deadline, priority) are sequenced earliest-deadline-first. Each becomes
a production order whose phases (SMT, Reflow, THT, AOI, Test, Coating,
Pack) are dated back to back in working time from a line cursor, using a
fixed per-unit bill of materials. Live production orders are linked back
to their sales orders and merged with the newly planned ones into a
proposed schedule. During execution a failed order is skipped or
restarted, and the rest of the schedule is replanned.

Around that core the model also covers:

- the record parsers and the tracking of known production orders in the
  platform client;
- the validation of the language-model replanner's answer;
- the chat front end's message splitting, status labels, paging and
  button data;
- the Gantt chart's cutting of a phase into in-shift segments;
- the stand-alone script pipeline (EDF policy, order creation and phase
  dating);
- the analysis comparing one production order per sales order with one
  per product group.

Instants are whole minutes since 1970-01-01T00:00Z. `Day(t)` is
`t / 1440` and `TimeOfDay(t)` is `t % 1440`. Python's unbounded integers
are Dafny `int`. Python dictionaries whose order matters are association
lists in insertion order (module `PyDict`). `sorted` is one stable
insertion sort (module `Sorting`), proved to be a permutation, ordered
and stable, which pins down the same result as Python's sort.

Loops and state changes are methods proved equal to a specification
function; the properties are lemmas about those functions:

- `add_working_minutes` and `_split_working_segments`;
- the phase-dating loops;
- the loops of `_match_existing_pos`, `_filter_active_entries` and
  `compute_schedule`;
- `split_message` and `_build_so_status_map`;
- the driver loop of `main.py`;
- the `_known_po_ids` bookkeeping of the client, a class with
  `modifies` clauses.

The modules:

| module | file | models |
|---|---|---|
| ShiftCalendar | calendar.dfy | the shift calendar, `add_working_minutes`, `snap_to_working_hours` |
| Bom | bom.dfy | phases, products and per-unit minutes |
| Models | models.dfy | the domain records and the schedule's `all_on_time`/`late_count` |
| Sorting, Planning, PlanPolicy | sorting.dfy, planning.dfy, plan_policy.dfy | `sorted` and both `sort_orders_edf` |
| PhasePlanning | phase_planning.dfy | `schedule_single_order` |
| Orchestrator, Assembly | orchestrator.dfy, assembly.dfy | `_match_existing_pos`, `_filter_active_entries`, `compute_schedule`, `build_existing_schedule` |
| PhaseRecords, Pipeline | phase_records.dfy, pipeline.dfy | phase-name look-ups, `extract_failed_phase_info`, `move_pipeline` |
| Recovery, Driver | recovery.dfy, driver.dfy | `ask_user_skip_or_restart`, `reschedule_after_failure`, the real-time loop of `main.py` |
| Script | script.dfy | `compute_total_minutes`, `create_and_schedule`, `schedule_all_orders` |
| GroupingAnalysis | grouping.dfy | `simulate_edf_per_order`, `simulate_edf_grouped` |
| Gantt | gantt.dfy | `_split_working_segments` |
| ApiClient | api_client.dfy | the record parsers and the known-id bookkeeping of `ArkeAPIClient` |
| Replanner | replanner.dfy | `build_ai_input`, `_parse_ai_response`, `propose_schedule_revision`'s fallback |
| Formatters, SalesHandlers | formatters.dfy, sales_handlers.dfy | chat-side text and callback helpers |
| Basics, JsonValues, PyDict, PyStrings | basics.dfy, json.dfy, pydict.dfy, pystrings.dfy | Option/Result, slicing and filtering, decoded JSON, ordered dicts, Python string operations |

Behaviour of the code that a reader might not expect, and that the
model keeps:

- A request that exactly fills the rest of a shift ends at 16:00, not at
  08:00 the next morning, so "inside the shift" is the closed range
  08:00–16:00. See `ShiftCalendar.WorkingEndAtShiftEnd`.
- `schedule_single_order` does not snap its incoming cursor to working
  hours. Only `compute_schedule` snaps, once, when it sets the first
  cursor.
- A product without a UUID or without a bill of materials is skipped with
  the cursor unchanged. It is not an error.
- The last Gantt segment ends at the span's end only when that end falls
  inside a shift. An end during the night is drawn up to 16:00 of the
  previous day. See `Gantt.SegmentAt` and `Gantt.LastSegmentEnd`.

## Model

| member | source | states |
|---|---|---|
| ShiftCalendar.ShiftConstants | src/scheduler_logic/constants.py:17-19 | 480 minutes per day is (16 − 8) × 60, the length of the 08:00–16:00 shift |
| ShiftCalendar.WorkingEnd | src/scheduler_logic/scheduling.py:34-49 | where `add_working_minutes` lands, in closed form; never before the start, and the start itself for a request of at most 0 minutes |
| ShiftCalendar.RolloverStep | src/scheduler_logic/scheduling.py:44-48 | consuming the rest of today's shift and restarting at 08:00 the next day leads to the same end |
| ShiftCalendar.WithinShiftStep | src/scheduler_logic/scheduling.py:41-43 | a request that fits in today's shift ends the loop at start + request |
| ShiftCalendar.RolloverShrinksBacklog | src/scheduler_logic/scheduling.py:38-48 | every rollover shrinks what is left, so the loop ends |
| ShiftCalendar.AddWorkingMinutes | src/scheduler_logic/scheduling.py:34-49 | the loop returns `WorkingEnd`; from a start inside the shift the result is inside the shift with exactly the requested working minutes in between |
| ShiftCalendar.WorkingEndKeepsShift | src/scheduler_logic/scheduling.py:34-49 | from a start inside the shift the result stays inside the shift and the shift clock advances by exactly the request |
| ShiftCalendar.WorkingEndAtShiftEnd | src/scheduler_logic/scheduling.py:39-43 | the result is exactly 16:00 iff the request fills today's remaining shift plus a whole number of shifts |
| ShiftCalendar.FiveHundredMinutesExample | src/scheduler_logic/scheduling.py:39-48 | day 1 08:00 plus 500 minutes is day 2 08:20 |
| ShiftCalendar.CarryToNextMorningExample | src/step3_4_create_order_schedule.py:29-73 | Feb 28 15:00 plus 120 minutes is Mar 1 09:00 |
| ShiftCalendar.SnapToWorkingHours | src/scheduler_logic/scheduling.py:52-59 | before 08:00 moves to 08:00 the same day, from 16:00 on to 08:00 the next day, otherwise unchanged; never earlier and always inside the shift |
| ShiftCalendar.SnapIdempotent | src/scheduler_logic/scheduling.py:52-59 | snapping twice is snapping once |
| Bom.PhaseNames | src/scheduler_logic/constants.py:15 | the seven names of `PHASES_ORDER`, position by position |
| Bom.PhaseIndex | src/scheduler_logic/constants.py:15 | the position of a phase in `PHASES_ORDER` |
| Bom.ParsePhase | src/scheduler_logic/constants.py:15 | a name is read back as the phase with that name, and nothing for a name outside `PHASES_ORDER` |
| Bom.ParseProduct | src/scheduler_logic/constants.py:7-13 | a product id is read back as the product with that id |
| Bom.ParseNames | src/scheduler_logic/constants.py:7-15 | reading a phase or product name gives back the phase or product |
| Bom.PhasesOrderDistinct | src/scheduler_logic/constants.py:15 | seven distinct phases with seven distinct names, covering every phase |
| Bom.PerUnitTotals | src/scheduler_logic/constants.py:8-12 | per-unit totals 147, 279, 63, 144 and 75 minutes |
| Bom.ZeroMinutePhases | src/scheduler_logic/constants.py:10-12 | a phase takes zero minutes exactly for IOT-200 and PCB-PWR-500 THT/Coating and AGR-400 Pack |
| Bom.PhaseOrderIndex | src/telegram_control/api_client.py:253-255 | the sort key of a phase name: its position in `PHASES_ORDER`, or 99 exactly when it has none |
| Models.NewScheduleEntry | src/shared/models.py:92-102 | an entry gets slack 0, no conflict note and `is_existing` false, and the given fields |
| Models.NewSchedule | src/shared/models.py:105-112 | a new schedule is "proposed", has no entries, conflicts, notes or date, is all on time with no late entry |
| Models.LateCountBounds | src/shared/models.py:114-120 | `late_count` is at most the number of entries, and `all_on_time` holds iff `late_count` is 0 |
| Planning.SortOrdersEdf | src/scheduler_logic/planning.py:8-10 | the result is a permutation of the orders |
| Planning.SortOrdersEdfSorted | src/scheduler_logic/planning.py:8-10 | the result is non-decreasing in (deadline, priority) |
| Planning.SortOrdersEdfStable | src/scheduler_logic/planning.py:10 | orders with equal (deadline, priority) keep their input order |
| Planning.EarlierDeadlineFirst | src/scheduler_logic/planning.py:10 | an earlier deadline comes first whatever the priorities |
| Planning.EscalationConflictExample | src/test_policies.py:40-46 | SO-0003 (Mar 4, P2) precedes SO-0005 (Mar 8, P1), which precedes SO-0001 (Mar 10, P3) |
| ApiClient.ParseCustomer | src/telegram_control/api_client.py:185-192 | only an object is read as a customer; an empty object gives id "", name "Unknown", no address or country |
| ApiClient.ParseSoLine | src/telegram_control/api_client.py:194-206 | no products gives the "Unknown" line of 0 pieces; otherwise the first product is read; product id and internal id are the same `extra_id` |
| ApiClient.OnlyFirstLine | src/telegram_control/api_client.py:198 | products after the first are ignored |
| ApiClient.LineNameDefaultsToId | src/telegram_control/api_client.py:199-203 | a product without a name is named by its id |
| ApiClient.ParseSalesOrder | src/telegram_control/api_client.py:208-219 | a record without "id" fails (KeyError); the id, line, default priority 99 and the `datetime.min` deadline when no shipping time is given |
| ApiClient.BareSalesOrder | src/telegram_control/api_client.py:208-219 | a record holding only an id reads as the all-defaults sales order |
| ApiClient.ParseSalesOrders | src/telegram_control/api_client.py:308 | one sales order per record, each the parse of its record |
| ApiClient.ParseSalesOrdersFails | src/telegram_control/api_client.py:308 | the list fails exactly when some record fails |
| ApiClient.SalesOrdersSorted | src/telegram_control/api_client.py:305-310 | `get_sales_orders` is a permutation of the parsed orders, non-decreasing in (deadline, priority) |
| ApiClient.ExtractPhaseName | src/telegram_control/api_client.py:229-238 | a record with none of the four name keys has the empty name |
| ApiClient.ExtractPhaseNamePrecedence | src/telegram_control/api_client.py:232-238 | the name is the first truthy of phase.name, name, phase_name, production_phase.name, else "" |
| ApiClient.ParsePhase | src/telegram_control/api_client.py:240-248 | the name is the extracted name; the id is "id" when truthy, else "phase_id"; status defaults to "not_ready", duration to 0 |
| ApiClient.NamedPhases | src/telegram_control/api_client.py:252 | at most one phase per record, every phase named |
| ApiClient.NamedPhasesKept | src/telegram_control/api_client.py:252 | exactly the records with a name are kept, as their parsed phases |
| ApiClient.SortPhasesOrder | src/telegram_control/api_client.py:253-255 | the phase sort is a permutation, in `PHASES_ORDER` position, unknown names last |
| ApiClient.EarliestStartIsMin | src/telegram_control/api_client.py:259-261 | the earliest start of the dated phases: absent iff none is dated, a lower bound and attained |
| ApiClient.LatestEndIsMax | src/telegram_control/api_client.py:259-262 | the latest end of the dated phases: absent iff none is dated, an upper bound and attained |
| ApiClient.SpanOfPhases | src/telegram_control/api_client.py:256-262 | with a dated phase the span is the min start and max end over dated phases; otherwise the record's dates or `datetime.min` |
| ApiClient.ParsePoFields | src/telegram_control/api_client.py:264-273 | lot defaults to the first 12 characters of the id, product name to the product internal id, quantity to 0, status to "unknown" |
| ApiClient.ParseProductionOrder | src/telegram_control/api_client.py:250-277 | a record without "id" fails; the phases are the named phases sorted by phase order; the span is `Span` of them and the record's dates; no sales order link |
| ApiClient.ProductionOrderPhases | src/telegram_control/api_client.py:251-255 | every phase of a parsed order is named, in phase order, and the phases are exactly the named records' phases |
| ApiClient.SweepStopsAtFailure | src/telegram_control/api_client.py:360-364 | once an order fails to parse, the rest of the sweep changes nothing |
| ApiClient.SweepSets | src/telegram_control/api_client.py:358-365 | the gone ids are exactly those the server no longer has; the seen ids are exactly those of the fetched orders |
| ApiClient.SweepTracking | src/telegram_control/api_client.py:360-365 | after a sweep a tracked id stays tracked iff the server still has it |
| ApiClient.ProductionOrdersByStart | src/telegram_control/api_client.py:366 | the result is a permutation of the fetched orders, non-decreasing in start |
| ApiClient.ArkeClient.constructor | src/telegram_control/api_client.py:40-52 | a new client tracks no orders, no sales-order links and no schedule |
| ApiClient.ArkeClient.ParseAndTrack | src/telegram_control/api_client.py:250-277 | the result is `ParseProductionOrder`; a parsed order's id joins the tracked ids; nothing else changes |
| ApiClient.ArkeClient.GetProductionOrders | src/telegram_control/api_client.py:356-367 | the result and the tracked ids are those of `Sweep`: the orders sorted by start, gone ids dropped; a parse failure aborts with the ids seen so far tracked |
| ApiClient.ArkeClient.DeleteProductionOrder | src/telegram_control/api_client.py:405-408 | an accepted delete untracks the id and returns true; a refused one raises and changes nothing |
| ApiClient.ArkeClient.ResetTracking | src/telegram_control/api_client.py:480-492 | every tracked id is offered for deletion, then tracked ids, links and current schedule are all cleared |
| Replanner.BuildAiInput | src/ai_scheduler_helper/gemini_replanner.py:81-120 | one existing input per schedule entry and one pending input per order, in order, with their ids, priorities, quantities and formatted dates; pending inputs have no planned times |
| Replanner.PendingIdsOfOrders | src/ai_scheduler_helper/gemini_replanner.py:167 | the pending ids handed to the parser are exactly the ids of the pending orders |
| Replanner.PendingStrings | src/ai_scheduler_helper/gemini_replanner.py:188 | the kept ids are exactly the string items that are pending ids |
| Replanner.PendingStringsInOrder | src/ai_scheduler_helper/gemini_replanner.py:188 | the filter keeps the model's order of the ids it keeps |
| Replanner.ReorderedIds | src/ai_scheduler_helper/gemini_replanner.py:185-188 | a value that is not a list gives no ids; every id kept is pending |
| Replanner.UpdateOf | src/ai_scheduler_helper/gemini_replanner.py:194-203 | an update is taken exactly from an object whose id is a string and whose priority is an integer from 1 to 4 |
| Replanner.BooleanPriorityAccepted | src/ai_scheduler_helper/gemini_replanner.py:198 | a JSON `true` priority passes the integer check and is read as priority 1 |
| Replanner.ValidUpdatesKept | src/ai_scheduler_helper/gemini_replanner.py:192-203 | the kept updates are exactly the valid ones among the raw updates |
| Replanner.CollectPriorityUpdates | src/ai_scheduler_helper/gemini_replanner.py:190-203 | the loop's result is the valid updates of a list, and none otherwise |
| Replanner.Conflicts | src/ai_scheduler_helper/gemini_replanner.py:207-210 | a non-list gives no conflicts; otherwise one string per item, its `str()` |
| Replanner.AiResponse | src/ai_scheduler_helper/gemini_replanner.py:175-217 | undecodable text gives the empty answer with the invalid-JSON comment; a decoded value that is not an object raises |
| Replanner.ParseAiResponse | src/ai_scheduler_helper/gemini_replanner.py:175-217 | the method computes `AiResponse` |
| Replanner.RevisionSafe | src/ai_scheduler_helper/gemini_replanner.py:224-232 | whatever the model answers, only pending ids and priorities 1 to 4 are passed on |
| Formatters.CutAt | src/telegram_control/formatters.py:649-651 | the cut is at most 4096 and, when below it, falls on a newline; under the corrected rule it is never 0 |
| Formatters.CutAtLastNewline | src/telegram_control/formatters.py:649-651 | the cut is the last newline before 4096 (from position 1 under the corrected rule), or 4096 when there is none |
| Formatters.Next | src/telegram_control/formatters.py:653 | the rest after a cut is a strictly shorter suffix of the text, past the cut, not starting with a newline |
| Formatters.GapSplit | src/telegram_control/formatters.py:652-653 | the text is the piece, the dropped newlines and the rest, in that order |
| Formatters.PiecesJoin | src/telegram_control/formatters.py:645-653 | the pieces and the newlines dropped between them rebuild the text exactly: nothing but leading newlines is lost |
| Formatters.PiecesFit | src/telegram_control/formatters.py:645-653 | every piece fits in 4096 characters and only newlines are dropped |
| Formatters.PiecesClean | src/telegram_control/formatters.py:653 | every piece after the first starts with something other than a newline |
| Formatters.ChunksStep | src/telegram_control/formatters.py:649-653 | one turn of the loop: the first chunk is the text up to the cut, the rest are the chunks of the stripped remainder |
| Formatters.SplitMessage | src/telegram_control/formatters.py:640-654 | the loop returns the chunks of the text as written, or the text itself when it fits |
| Formatters.SplitMessageFits | src/telegram_control/formatters.py:640-654 | a text that fits is one message; every message is at most 4096 characters |
| Formatters.EmptyPieceAsWritten | src/telegram_control/formatters.py:649-652 | a long text starting with a newline and with no other newline before 4096 gives an empty first message; the corrected rule sends its first 4096 characters |
| Formatters.EmptyPieceExample | src/telegram_control/formatters.py:649-652 | a newline followed by 4096 letters gives an empty first message |
| Formatters.NoEmptyPieces | src/telegram_control/formatters.py:645-653 | under the corrected rule no message of a long text is empty |
| Formatters.ExecutionState | src/telegram_control/formatters.py:310-315 | pending before the start, completed once the end has passed, in progress in between |
| Formatters.ExecutionStateMonotone | src/telegram_control/formatters.py:310-315 | for a span that is not inverted the state never goes back as time passes |
| Formatters.StatusLabel | src/telegram_control/formatters.py:174-178 | a label exists exactly for completed, in progress and scheduled; other statuses raise |
| Formatters.SoProductionLine | src/telegram_control/formatters.py:181-193 | a non-empty production status gives its label (and raises when it has none); otherwise the missed line iff both times are known and the deadline has passed, else nothing |
| Formatters.TotalPages | src/telegram_control/formatters.py:203 | there is always at least one page |
| Formatters.TotalPagesFit | src/telegram_control/formatters.py:203 | the pages hold all orders and the last page is not empty; no orders gives one page |
| Formatters.PageContents | src/telegram_control/formatters.py:204-205 | a page holds at most 5 orders, the slice from `page*5`; pages before the last are full; pages past the end are empty |
| Formatters.OrderOnItsPage | src/telegram_control/formatters.py:203-205 | every order is shown on page `i / 5` at position `i % 5` |
| SalesHandlers.ProductionStatus | src/telegram_control/handlers/sales_orders.py:41-50 | completed once the order's end has passed, in progress after its start, scheduled before or when the order is unknown |
| SalesHandlers.ProductionStatusIsExecutionState | src/telegram_control/handlers/sales_orders.py:41-50 | for a span that is not inverted the status agrees with the detail view's execution state |
| SalesHandlers.PoById | src/telegram_control/handlers/sales_orders.py:37 | a found order has the id and is among the fetched orders; none is found iff no order has the id |
| SalesHandlers.PoByIdLastWins | src/telegram_control/handlers/sales_orders.py:37 | of several orders with one id, the last fetched is found |
| SalesHandlers.BuildSoStatusMap | src/telegram_control/handlers/sales_orders.py:25-51 | the loop builds `StatusMap`, one status per sales order of the map |
| SalesHandlers.StatusMapKeys | src/telegram_control/handlers/sales_orders.py:39-51 | the status map has exactly the sales orders of the link map, in order, without repeats |
| SalesHandlers.StatusMapGet | src/telegram_control/handlers/sales_orders.py:39-51 | a sales order's status is its production order's status; a sales order without a link has none |
| SalesHandlers.SoStatus | src/telegram_control/handlers/sales_orders.py:54-55 | a status is found exactly for the sales orders in the map |
| SalesHandlers.PageFromDataRoundTrip | src/telegram_control/handlers/sales_orders.py:58-64 | the page number written after the last colon is read back; no number reads as page 0 |
| SalesHandlers.IdFromDataRoundTrip | src/telegram_control/handlers/sales_orders.py:67-69 | the id after the second colon is read back whole, colons included; no id reads as "" |
| SalesHandlers.QuantityInput | src/telegram_control/handlers/sales_orders.py:221-229 | a quantity is accepted exactly when the stripped text is digits of value at least 1, and is that value |
| SalesHandlers.QuantityInputShowNat | src/telegram_control/handlers/sales_orders.py:221-229 | a positive number typed in decimal is accepted as itself; 0 is refused |
| Gantt.NextMorning | src/scheduler_logic/gantt.py:35-37 | the next 08:00 after an instant is later than it |
| Gantt.SplitWorkingSegments | src/scheduler_logic/gantt.py:20-38 | the loop returns `Segments(start, end)` |
| Gantt.SegmentAt | src/scheduler_logic/gantt.py:25-37 | segment i: the first starts at the span's start; each ends by 16:00 of its day; all but the last end at exactly 16:00 and are followed by 08:00 the next day; the last ends at the span's end unless that falls overnight |
| Gantt.SegmentsShape | src/scheduler_logic/gantt.py:20-38 | no segments iff the span is empty or inverted; otherwise they start at the start, run in order without overlap, each inside its day's shift end; the first is backwards iff the span starts after 16:00 |
| Gantt.LastSegmentEnd | src/scheduler_logic/gantt.py:29-31 | a span ending inside a shift has its last segment ending at the span's end |
| Gantt.DrawnIsWorkingTime | src/scheduler_logic/gantt.py:20-38 | between two in-shift instants the segments cover exactly the working minutes in between |
| Gantt.PhaseDrawnLength | src/scheduler_logic/gantt.py:20-38 | a phase placed by `add_working_minutes` is drawn with exactly its minutes |
| Gantt.OvernightExample | src/scheduler_logic/gantt.py:20-38 | Mar 01 13:18 to Mar 02 08:18 is drawn as 13:18-16:00 and 08:00-08:18 |
| GroupingAnalysis.EdfOrder | src/grouping_analysis.py:77 | the sort is a permutation of the orders |
| GroupingAnalysis.RunOrders | src/grouping_analysis.py:78-95 | the rolling-clock loop returns `PerOrderPlan` |
| GroupingAnalysis.SimulatePerOrder | src/grouping_analysis.py:76-95 | strategy A is the per-order plan of the orders sorted by (deadline, priority), from 2026-02-28 08:00 |
| GroupingAnalysis.PerOrderPlanAt | src/grouping_analysis.py:81-93 | row i starts after the work of all earlier orders |
| GroupingAnalysis.PerOrderRows | src/grouping_analysis.py:81-93 | each row starts where the previous ended, lasts minutes-per-unit times quantity, and is on time iff it ends by the deadline; slack is deadline minus end |
| GroupingAnalysis.PerOrderPlanEnd | src/grouping_analysis.py:78-93 | the last order ends after all the work from the start |
| GroupingAnalysis.SimulatePerOrderSorted | src/grouping_analysis.py:76-95 | one row per order, the rows' orders a permutation of the input, in (deadline, priority) order |
| GroupingAnalysis.AddToGroup | src/grouping_analysis.py:106-107 | appending an order adds at most one group |
| GroupingAnalysis.AddToGroupEffect | src/grouping_analysis.py:106-107 | the order joins the group of its product, or opens a new last group |
| GroupingAnalysis.BuildGroups | src/grouping_analysis.py:105-107 | the loop returns `Grouped` |
| GroupingAnalysis.GroupedPartition | src/grouping_analysis.py:105-107 | one non-empty group per product, holding exactly that product's orders in input order; every order is grouped |
| GroupingAnalysis.GroupMembership | src/grouping_analysis.py:105-107 | an order is in a group iff it is an input order of that product |
| GroupingAnalysis.MinDeadlineIsMin | src/grouping_analysis.py:111 | the earliest deadline is a lower bound attained by an order of the group |
| GroupingAnalysis.SummariseGroups | src/grouping_analysis.py:109-120 | the loop returns one summary per group |
| GroupingAnalysis.SummariesMins | src/grouping_analysis.py:112-113 | the groups' minutes add up to the groups' work |
| GroupingAnalysis.ShipVerdicts | src/grouping_analysis.py:135-143 | the loop returns `ShipAll` |
| GroupingAnalysis.ShipAllAt | src/grouping_analysis.py:136-143 | each order ships at the group's end, with slack deadline minus end, on time iff the end is by its deadline |
| GroupingAnalysis.GroupVerdicts | src/grouping_analysis.py:127-152 | a group's verdicts cover its orders, all ship at its end; the group is on time iff every order is |
| GroupingAnalysis.GroupedPlanSnoc | src/grouping_analysis.py:127-153 | one turn of the group loop: the group starts after the minutes of all earlier groups |
| GroupingAnalysis.RunGroups | src/grouping_analysis.py:125-155 | the loop returns `GroupedPlan` |
| GroupingAnalysis.SimulateGrouped | src/grouping_analysis.py:102-155 | strategy B is the grouped plan of the summaries sorted by earliest deadline, from 2026-02-28 08:00 |
| GroupingAnalysis.AddToGroupWork | src/grouping_analysis.py:106-113 | grouping an order adds exactly its work |
| GroupingAnalysis.GroupedWork | src/grouping_analysis.py:105-113 | the groups hold exactly the work of all orders |
| GroupingAnalysis.GroupedPlanEnd | src/grouping_analysis.py:125-153 | the last group ends after all groups' minutes from the start |
| GroupingAnalysis.GroupScheduleSorted | src/grouping_analysis.py:123 | groups run in non-decreasing order of earliest deadline |
| GroupingAnalysis.SameFinish | src/grouping_analysis.py:76-155 | both strategies finish the line at the same instant: the start plus all the work |
| PlanPolicy.SortRawOrdersEdf | src/step2_plan_policy.py:21-22 | the sort is a permutation of the raw orders |
| PlanPolicy.SortRawOrdersEdfSorted | src/step2_plan_policy.py:21-22 | the result is non-decreasing in (shipping-time string, priority) |
| PlanPolicy.SortRawOrdersEdfStable | src/step2_plan_policy.py:21-22 | orders with equal keys keep their input order |
| PlanPolicy.EscalatedOrderStaysBehind | src/step2_plan_policy.py:16-22 | the Mar 8 order escalated to priority 1 still sorts after the Mar 4 order at priority 2 |
| PlanPolicy.MixedOffsetsNotChronological | src/step2_plan_policy.py:22 | comparing shipping times as strings puts 10:00+02:00 after 09:00Z although it is earlier |
| PhaseRecords.FirstTruthyIsFirst | src/real_time/advance_pipleine.py:24-30 | an `or` chain is its first truthy candidate, or the fallback when none is truthy |
| PhaseRecords.PhaseNamePrecedence | src/step3_4_create_order_schedule.py:96-102 | the name is the first truthy of phase.name, name, phase_name, production_phase.name, else the fallback |
| PhaseRecords.PhaseNameRaises | src/real_time/advance_pipleine.py:25-28 | the look-up raises exactly when the `phase` look-up raises, or when the three earlier candidates are falsy and the `production_phase` look-up raises |
| PhaseRecords.OrEmptyToleratesNull | src/telegram_control/api_client.py:236 | with `or {}` a null nested record reads as the empty name |
| PhaseRecords.GetDefaultRejectsNull | src/step3_4_create_order_schedule.py:97 | with a `{}` default a present null nested record raises |
| PhaseRecords.PhaseNameTruthyOrFallback | src/step3_4_create_order_schedule.py:96-102 | a name that is read is truthy or the fallback |
| Orchestrator.SoById | src/scheduler_logic/orchestrator.py:101 | a found sales order has the id |
| Orchestrator.SoByIdListed | src/scheduler_logic/orchestrator.py:101 | a found sales order is listed; none is found iff no sales order has the id |
| Orchestrator.FirstCandidate | src/scheduler_logic/orchestrator.py:103-120 | a fallback match is unlinked, of the order's product (by any of the three name pairs) and of its quantity |
| Orchestrator.FirstCandidateListed | src/scheduler_logic/orchestrator.py:104-120 | a fallback match is listed; there is none iff no listed sales order qualifies |
| Orchestrator.FirstCandidateIsFirst | src/scheduler_logic/orchestrator.py:104-120 | the fallback match is the first qualifying sales order |
| Orchestrator.MatchStepEntry | src/scheduler_logic/orchestrator.py:93-151 | each production order appends exactly one existing entry: its sales order's deadline and on-time verdict, or a placeholder due at the order's end |
| Orchestrator.MatchUpToEntry | src/scheduler_logic/orchestrator.py:93-153 | entry k is the entry of production order k |
| Orchestrator.MatchUpTo | src/scheduler_logic/orchestrator.py:84-153 | one entry per production order looked at; `MatchUpToEntry`, `MatchUpToDistinct` and `MatchUpToRecordsLink` characterise the entries and the map |
| Orchestrator.MatchUpToLength | src/scheduler_logic/orchestrator.py:93-153 | one entry per production order |
| Orchestrator.MatchUpToDistinct | src/scheduler_logic/orchestrator.py:114 | the link map keeps one entry per sales order |
| Orchestrator.MatchUpToRecordsLink | src/scheduler_logic/orchestrator.py:114-123 | every sales order marked as matched has a link to an existing production order |
| Orchestrator.MatchStepRecordsLink | src/scheduler_logic/orchestrator.py:96-123 | one step keeps every matched sales order linked |
| Orchestrator.MatchStepLinks | src/scheduler_logic/orchestrator.py:96-151 | a mapped link wins and leaves the map alone; else the first candidate is matched and linked; else a placeholder entry |
| Orchestrator.FindCandidate | src/scheduler_logic/orchestrator.py:104-120 | the loop finds `FirstCandidate` |
| Orchestrator.MatchExistingPos | src/scheduler_logic/orchestrator.py:84-153 | the loop's entries, matched set and link map are `MatchUpTo` over all production orders |
| Orchestrator.FilterActiveEntries | src/scheduler_logic/orchestrator.py:156-170 | an entry is kept iff its deadline or its end is after now, in order |
| Assembly.PendingSkippedPartition | src/scheduler_logic/orchestrator.py:244-251 | pending and skipped split the unmatched sales orders: pending iff due after now |
| Assembly.LastWithId | src/scheduler_logic/orchestrator.py:260 | the dictionary keeps the last pending order with an id |
| Assembly.LastWithIdListed | src/scheduler_logic/orchestrator.py:260-261 | a pending order is found for an id iff one has it, and it is listed |
| Assembly.HintPicks | src/scheduler_logic/orchestrator.py:261 | at most one pick per hint id |
| Assembly.SpliceHintAsWrittenDuplicates | src/scheduler_logic/orchestrator.py:259-265 | a hint naming one order twice schedules it twice |
| Assembly.Dedup | src/scheduler_logic/orchestrator.py:261 | the deduplicated hint names the same ids |
| Assembly.DedupDistinct | src/scheduler_logic/orchestrator.py:261 | the deduplicated hint has no repeats |
| Assembly.FilterIdIsLast | src/scheduler_logic/orchestrator.py:260 | with distinct ids, the orders with an id are exactly the one the dictionary keeps |
| Assembly.HintPicksAreHinted | src/scheduler_logic/orchestrator.py:261 | with a repeat-free hint, the picks are exactly the hinted pending orders |
| Assembly.SpliceHintPermutation | src/scheduler_logic/orchestrator.py:259-269 | with the corrected hint, the planned orders are a permutation of the pending ones |
| Assembly.HintPicksIds | src/scheduler_logic/orchestrator.py:261 | the picks follow the hint's order over the ids that are pending |
| Assembly.SpliceHintOrder | src/scheduler_logic/orchestrator.py:259-265 | hinted orders come first in hint order; the rest are exactly the unhinted pending orders, in EDF order |
| Assembly.SpliceHintFromPending | src/scheduler_logic/orchestrator.py:259-269 | every planned order is pending |
| Assembly.LatestEndIsMax | src/scheduler_logic/orchestrator.py:273 | the latest end is an upper bound attained by an existing order |
| Assembly.InitialCursorBounds | src/scheduler_logic/orchestrator.py:272-276 | the line starts no earlier than the snapped clock and every existing order's end, and at one of them |
| Assembly.PassStepShape | src/scheduler_logic/orchestrator.py:280-291 | a failed order changes nothing; a scheduled one appends an entry from the cursor to the new cursor and links its sales order |
| Assembly.PlanPassBackToBack | src/scheduler_logic/orchestrator.py:279-291 | the new entries run back to back from the starting cursor, never moving it back |
| Assembly.PlanPassEntry | src/scheduler_logic/orchestrator.py:279-291 | every new entry is a consistent new entry of a planned order, starting no earlier than the cursor |
| Assembly.PlanPending | src/scheduler_logic/orchestrator.py:279-291 | the loop computes `PlanPass` |
| Assembly.ComputeScheduleSorted | src/scheduler_logic/orchestrator.py:293-308 | the schedule is proposed at now, with the AI comment or the user's, the AI conflicts, entries sorted by start |
| Assembly.ActiveExistingEntry | src/scheduler_logic/orchestrator.py:294 | every kept existing entry is existing, active and of an existing order |
| Assembly.PassEntry | src/scheduler_logic/orchestrator.py:244-291 | every new entry is of an unmatched sales order due after now, starts after every existing order ends |
| Assembly.ComputeScheduleEntries | src/scheduler_logic/orchestrator.py:294-296 | the entries are exactly the active existing ones and the new ones |
| Assembly.ComputeSchedule | src/scheduler_logic/orchestrator.py:214-317 | the method computes `ComputeSchedulePlan` |
| Assembly.ComputeSchedulePlan | src/scheduler_logic/orchestrator.py:214-317 | the schedule is proposed and stamped with now; `ComputeScheduleSorted`, `ComputeScheduleEntries`, `PassEntry` and `ActiveExistingEntry` characterise its entries |
| Assembly.ExistingScheduleShape | src/scheduler_logic/orchestrator.py:173-211 | none iff no active existing entry; otherwise an accepted schedule of exactly those entries, sorted by start |
| Assembly.ExistingSchedule | src/scheduler_logic/orchestrator.py:173-211 | a schedule is only ever an accepted, non-empty one; `ExistingScheduleShape` and `ExistingScheduleLinks` characterise the schedule and the client's map |
| Assembly.ExistingScheduleLinks | src/scheduler_logic/orchestrator.py:186-192 | the client's map keeps distinct keys, is untouched without production orders, and afterwards records each sales order the matching linked against a live production order whose entry carries it |
| PhasePlanning.FirstNamed | src/scheduler_logic/scheduling.py:114 | a found phase is one of the order's phases with the name; none is found iff no phase has it |
| PhasePlanning.FirstNamedIsFirst | src/scheduler_logic/scheduling.py:114 | the found phase is the first with the name |
| PhasePlanning.ChainedAppend | src/scheduler_logic/scheduling.py:127-135 | a phase starting where the chain ends extends the chain |
| PhasePlanning.PlanStepShape | src/scheduler_logic/scheduling.py:109-135 | a phase with minutes and a generated match appends one phase from the cursor to its working end; any other phase changes nothing |
| PhasePlanning.SelectedPhases | src/scheduler_logic/scheduling.py:109-116 | exactly the phases with minutes and a generated match are dated |
| PhasePlanning.PlanPhasesNames | src/scheduler_logic/scheduling.py:109-135 | the dated phases are the selected ones, in phase order |
| PhasePlanning.PlanPhasesChained | src/scheduler_logic/scheduling.py:106-135 | the dated phases run back to back from the cursor, which never moves back |
| PhasePlanning.PlanPhasesWellTimed | src/scheduler_logic/scheduling.py:118-134 | each dated phase lasts minutes-per-unit times quantity and ends at the working end of its start |
| PhasePlanning.PlanPhasesWorkingTime | src/scheduler_logic/scheduling.py:106-135 | from a start inside the shift, the plan ends inside the shift after exactly the phases' working minutes |
| PhasePlanning.SingleOrderSkipped | src/scheduler_logic/scheduling.py:86-95 | a product without a UUID or without a bill of materials is skipped and the cursor stays |
| PhasePlanning.SingleOrderPlan | src/scheduler_logic/scheduling.py:76-173 | an order planned without an entry leaves the cursor; `SingleOrderSkipped` and `SingleOrderPlanned` characterise both outcomes |
| PhasePlanning.SingleOrderPlanned | src/scheduler_logic/scheduling.py:97-173 | a created order's entry runs from the cursor to the new cursor, is due at the sales order's deadline, new, consistent, with chained phases and linked to its sales order |
| PhasePlanning.ScheduleSingleOrder | src/scheduler_logic/scheduling.py:76-173 | the method computes `SingleOrderPlan` |
| Script.ComputeTotalMinutesRate | src/step3_4_create_order_schedule.py:86-88 | a known product's total is its minutes per unit times the quantity; an unknown product's is 0 |
| Script.ComputeTotalMinutes | src/step3_4_create_order_schedule.py:86-88 | an unknown product needs no minutes; `ComputeTotalMinutesRate` gives the known ones |
| Script.SortPhases | src/step3_4_create_order_schedule.py:182-186 | the sort fails exactly when some phase's name look-up raises; otherwise it is a permutation of the raw phases |
| Script.SortPhasesOrdered | src/step3_4_create_order_schedule.py:182-186 | the sorted phases are in phase order, unknown names last |
| Script.DatePhasesContiguous | src/step3_4_create_order_schedule.py:188-215 | the dated phases start at the cursor and run back to back; the new cursor is the last end, or the start when none is dated |
| Script.DatePhases | src/step3_4_create_order_schedule.py:188-215 | at most one log entry per phase; `DatePhasesContiguous`, `DatePhasesDurations` and `DatePhasesNames` characterise the log |
| Script.DatePhasesDurations | src/step3_4_create_order_schedule.py:192-203 | each dated phase is a known phase with minutes, ending at the working end of minutes-per-unit times quantity after its start |
| Script.DatePhasesNames | src/step3_4_create_order_schedule.py:188-212 | log entry k is the k-th plannable phase (with an id, a known name and minutes) in sorted order, by name, and there is one entry per such phase |
| Script.DatePhasesLoop | src/step3_4_create_order_schedule.py:188-215 | the loop computes `DatePhases` |
| Script.CreateAndScheduleCursor | src/step3_4_create_order_schedule.py:132-234 | a skipped order leaves the cursor; a scheduled one runs from the cursor to the new cursor and is on time iff it ends by its deadline; an unknown product is skipped |
| Script.CreateAndSchedule | src/step3_4_create_order_schedule.py:132-234 | an order without a log entry leaves the cursor; `CreateAndScheduleCursor` and `CreateAndScheduleRaises` characterise the rest |
| Script.CreateAndScheduleRaises | src/step3_4_create_order_schedule.py:182-197 | raises exactly when the created order's phases are not a list of dicts, a name look-up raises, or a phase's name is a list or a dict (unhashable in the minutes look-up); a missing product or refused request is no error |
| Script.ListNameRaises | src/step3_4_create_order_schedule.py:194 | the phase `{"id": "p", "name": ["SMT"]}` makes the order raise TypeError rather than be skipped |
| Script.ScheduleAllBackToBack | src/step3_4_create_order_schedule.py:236-248 | the orders run back to back from 2026-02-28 08:00, at most one entry per order |
| Script.ScheduleAll | src/step3_4_create_order_schedule.py:236-247 | at most one log entry per order; `ScheduleAllBackToBack` and `PrefixErrPersists` characterise the run |
| Script.ScheduleAllOrders | src/step3_4_create_order_schedule.py:236-281 | the loop succeeds iff `ScheduleAll` does, with its log |
| Script.PrefixErrPersists | src/step3_4_create_order_schedule.py:244-247 | an exception on an order ends the whole run |
| Pipeline.LoweredStatus | src/real_time/advance_pipleine.py:46 | a status is read only from an object phase |
| Pipeline.FirstActiveIsFirst | src/real_time/advance_pipleine.py:45-50 | the phase picked first is the first in progress, running or failed |
| Pipeline.FirstActiveNone | src/real_time/advance_pipleine.py:45-50 | no phase is picked only when none is active |
| Pipeline.LastNotDoneIsLast | src/real_time/advance_pipleine.py:53-58 | the fallback phase is the last one not done |
| Pipeline.LastNotDoneNone | src/real_time/advance_pipleine.py:53-58 | no fallback only when every phase is done |
| Pipeline.ExtractUnknown | src/real_time/advance_pipleine.py:37-42 | a non-object order or one without phases gives the unknown phase |
| Pipeline.ExtractFailedPhaseInfo | src/real_time/advance_pipleine.py:32-64 | a non-dict order gives the unknown phase; `ExtractUnknown` and `ExtractPicksPhase` characterise the rest |
| Pipeline.ExtractPicksPhase | src/real_time/advance_pipleine.py:32-64 | the failed phase is the first active one, else the last not done, else the first |
| Pipeline.Iterated | src/real_time/advance_pipleine.py:72-73 | iterating a list gives its items, a dict its keys, a string its characters; any other value raises |
| Pipeline.FirstReadyIsFirst | src/real_time/advance_pipleine.py:73 | the phase found is the first ready one and nothing after it is read; none iff every item is a dict that is not ready; raises iff a non-dict comes before any ready phase |
| Pipeline.MovePipelineBrokenCarriesOrder | src/real_time/advance_pipleine.py:66-108 | the order is handed back exactly when the move is broken |
| Pipeline.MovePipelineStartsFirstReady | src/real_time/advance_pipleine.py:73-104 | nothing is started iff no phase is ready; otherwise the first ready phase is started, and completed only when the robot finishes; an in-progress move completes that phase |
| Pipeline.MovePipelineDone | src/real_time/advance_pipleine.py:75-102 | done iff every phase is done (and there is one), or the robot finished the last phase |
| Pipeline.MovePipeline | src/real_time/advance_pipleine.py:66-108 | a broken move hands back the order; the lemmas below characterise the rest |
| Pipeline.MovePipelineRaises | src/real_time/advance_pipleine.py:72-93 | raises exactly when `phases` is not iterable, the ready scan meets a non-dict, or the ready phase or the last item has no id to read |
| Pipeline.MovePipelineNoPhases | src/real_time/advance_pipleine.py:72-90 | an empty list, dict or string of phases gives a broken move with the order |
| Pipeline.MovePipelineScansUpToReady | src/real_time/advance_pipleine.py:73-93 | a non-dict item between the ready phase and the last one does not stop the ready phase from starting |
| Recovery.ParseChoice | src/real_time/reschedule.py:82-86 | a reply is read only as "skip" or "restart" |
| Recovery.ParseChoicePaddedDigit | src/real_time/reschedule.py:82-84 | " 1 " is stripped and read as skip |
| Recovery.ParseChoiceCapitalised | src/real_time/reschedule.py:82-86 | "Restart" is lowered and read as restart |
| Recovery.ParseChoiceRefuses | src/real_time/reschedule.py:81-87 | "3" is asked again |
| Recovery.FirstParsed | src/real_time/reschedule.py:81-87 | a choice found is the reading of the line it reports |
| Recovery.FirstParsedIsFirst | src/real_time/reschedule.py:81-87 | the first line that reads as a choice decides; none iff no line does |
| Recovery.AskChoice | src/real_time/reschedule.py:81-87 | the prompt only ever returns skip or restart |
| Recovery.ReadUntilParsed | src/real_time/reschedule.py:81-87 | the loop returns the first choice and the lines read, or nothing when the input ends |
| Recovery.AskUserSkipOrRestart | src/real_time/reschedule.py:61-87 | an injected prompt's reply is returned as is without reading input; otherwise the loop's choice |
| Recovery.RescheduleChoices | src/real_time/reschedule.py:117-140 | the reschedule succeeds exactly for skip and restart; any other choice raises |
| Recovery.RescheduleAfterFailure | src/real_time/reschedule.py:95-140 | a successful reschedule keeps the entries before the failed one; `RescheduleChoices`, `SkipShape` and `RestartShape` characterise the rest |
| Recovery.SkipShape | src/real_time/reschedule.py:117-124 | skip keeps the entries before the failed one and replans those after it from now; the log shrinks by one |
| Recovery.RestartShape | src/real_time/reschedule.py:126-138 | restart keeps the earlier entries, puts the restarted order in its place and replans the rest after it; the length is kept |
| Driver.AskChoiceValid | src/main.py:126 | the prompt used on a failure answers only skip or restart |
| Driver.HandleBroken | src/main.py:107-136 | a broken move counts one error and records the failure with the unknown phase, stamped with the clock reading taken before the prompt; the current order and the entries before it stay; the run stops iff the prompt gets no answer; otherwise the new log is `reschedule_after_failure` of the operator's choice, planned from a second clock reading taken after the answer |
| Driver.MainHandlerValid | src/main.py:107-136 | the failure handler of the driver keeps the run's invariants |
| Driver.DriveCounts | src/main.py:96-144 | correct counts the done moves and errors the broken ones; the index advances once per done move |
| Driver.Drive | src/main.py:96-144 | never reads past the outcomes given; `DriveCounts`, `DriveStops` and `RealTimeCounts` characterise the run |
| Driver.DriveStops | src/main.py:96-144 | the run finishes iff every order is processed; otherwise it stops when the outcomes or the input run out |
| Driver.RealTimeCounts | src/main.py:93-147 | from the start, correct equals the index and the done moves; errors equal the failures recorded and the broken moves |
| Driver.AdvanceOrder | src/main.py:103-144 | one pass of the inner loop either stops the run or moves to a state with the same outcome |
| Driver.RealTime | src/main.py:93-147 | the loop computes `Drive` from the initial run |
| Driver.MainCounts | src/main.py:93-147 | with the driver's own failure handler the counts hold as in `RealTimeCounts` |

## Left out

- Network calls. No HTTP request is modelled. What the platform answers is a parameter of the model:
  - sales and production orders, and product UUIDs;
  - production-order creation and the phase records it generates;
  - fetch and delete answers (`fetch`, `create`, `created`, `uuids`, `accepted`).
- Authentication and the date-update calls, including their end-before-start ordering, are not modelled.
- The clock. `datetime.now()` and `get_sim_now()` are inputs (`now`, `clock`). The simulated clock with its floating-point rate (src/telegram_control/api_client.py:82-104) is not modelled.
- Floating point:
  - `slack_hours` is kept as whole minutes;
  - the hour and day figures printed by the scripts and the analysis are not modelled;
  - `math.ceil(total / ORDERS_PER_PAGE)` is modelled with integer division, which gives the same page count for any non-negative total.
- Date text. `datetime.fromisoformat` is the parameter `iso`. `strftime` is the parameter `fmt`. `str()` of a decoded JSON value is the parameter `repr`. JSON decoding itself is not modelled: the replanner receives the decoded value, or `None` for invalid JSON.
- Field types. A JSON field whose type differs from the one the dataclass expects (a string quantity, say) is refused with an error, because Python would store it unchecked and fail later.
- The language-model call. `_call_gemini_sync`, the prompt text and the model's answer are not modelled; any answer is an input. An exception in the call is modelled as the fallback answer (`Replanner.Revision`).
- Rendering and printing:
  - `generate_gantt_image` and `_build_text_summary`;
  - the formatters other than `split_message`, `_execution_state`, `_so_production_line` and the page arithmetic;
  - every `print` and log call;
  - `detect_so005_conflict`, which only prints.
- Chat handlers. The Telegram handlers other than the helpers of src/telegram_control/handlers/sales_orders.py are not modelled, nor is schedule acceptance or rejection.
- File I/O. `save_failed_order` and `load_failed_order` are not modelled, and `failed_at` is the reading `clock(2*k)` of the k-th failure; the log is rescheduled from the later reading `clock(2*k+1)`. The driver keeps the records it would save in `Run.failures`.
- Replanners. `reschedule_orders_from_time` and `restart_order_as_new` are not part of this model. They are the parameters `replan` and `restart`.
- The robot is not part of this model. It is the boolean `robotComplete`, or the sequence of pipeline outcomes the driver reads.
- Set order. `list(self._known_po_ids)` visits a set in an order Python does not fix. The order is the parameter `ids` of `GetProductionOrders` and `ResetTracking`, with the same elements as the tracked set.
- Grouping data. The twelve hard-coded sales orders of src/grouping_analysis.py are not instantiated: both strategies are proved for any order list. The per-unit minute table is the parameter `rate`, which the file's `mins_per_unit` instantiates as `Bom.MinsPerUnit`.
- Unicode. `str.isdigit`, `int()`, `strip()` and `lower()` are modelled over ASCII, while Python also accepts other Unicode digits, spaces and letters.
- Formatters.PageContents: stated for page numbers of at least 0 only. A negative page read from button data (`so:list:-1`) follows Python's negative slicing in `PageOrders`, but no lemma characterises it.
- Recovery.SkipShape: the one-shorter length is proved only for a `replan` that keeps lengths, as `reschedule_after_failure`'s own docstring assumes.
- Recovery.RestartShape: the unchanged length is proved only for a `replan` that keeps lengths, for the same reason.
- SalesHandlers.ProductionStatusIsExecutionState: the agreement with the detail view is proved only for orders whose start is not after their end. An inverted span shows "completed" in one place and "Pending" in the other.
- Assembly.ComputeSchedule: plans the reorder hint with repeated ids removed (`SpliceHint`), so each pending order is planned at most once. src/scheduler_logic/orchestrator.py:259-265 plans an order once per repeat of its id. The code as written is `SpliceHintAsWritten` (see Findings).
- Assembly.ComputeSchedulePlan: plans the deduplicated hint, as above.
- Superseded copies. The copies under docs/ and the scheduling policies other than EDF (`sort_orders_by_policy`) are not modelled. The duplicate `add_working_minutes` of src/step3_4_create_order_schedule.py:39-73 is the same loop as `ShiftCalendar.AddWorkingMinutes`.

## Findings

| source | as written | input that shows it | evidently intended | confidence | as-written member | corrected member |
|---|---|---|---|---|---|---|
| src/scheduler_logic/orchestrator.py:259-265 | every occurrence of a pending id in the reorder hint picks that sales order again; `_parse_ai_response` does not remove repeated ids | one pending order "A" and the hint ["A", "A"]: "A" is planned twice | each pending order is planned exactly once: the planned orders are a permutation of the pending ones | not executed | Assembly.SpliceHintAsWrittenDuplicates | Assembly.SpliceHintPermutation |
| src/telegram_control/formatters.py:649-652 | a newline found at position 0 is taken as the cut, so an empty piece is sent | "\n" followed by 4096 letters: the first message is empty | no message is empty; a cut at 0 is treated like no newline, sending the first 4096 characters | not executed | Formatters.EmptyPieceAsWritten | Formatters.NoEmptyPieces |
