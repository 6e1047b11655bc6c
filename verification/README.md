# Energy store: reports, accounting and spreadsheets

This project models the read side of the eegfaktura energy store and the accounting engine on top
of it, and proves what its reports promise.

Quarter-hour readings are stored in a long table, one row per metering point, OBIS code and
moment. A query reads the rows of a community in time order and assembles them into wide lines:
each consumer owns three cells (consumed, share, coverage), each producer two (produced, profit).
Missing quarter-hours are filled with empty lines. Everything else is a consumer of that line
stream:

* raw and aggregated series per metering point, and the intraday, load, weekly, monthly and
  summary reports, partly through a streaming bucketer that jumps over gaps;
* the participant report, which flushes every calendar day into the entries whose membership
  window covers it, and the legacy report, whose intermediate reports share their buffers with
  the accumulators they were taken from;
* the "Energiedaten" spreadsheet, which the import reads back into metering points and slots.

Two smaller state machines carry the rest: the counterpoint table that hands out source indices,
and the chunked upsert of slots.

## Conventions

* A moment is a whole number of local minutes since 0001-01-01 in one fixed zone that is a whole
  number of hours from UTC; row ids and date cells are printed and scanned character by character.
* Energies are exact reals counted in millionths of a kilowatt-hour. Rounding to six decimals is
  then rounding to a whole number, half away from zero (`Rounding`), and is the only rounding.
* The tables are maps and a query is the sorted sequence of its rows. A statement, or a chunk of
  an upsert, is atomic.
* A callback is turned inside out: the method that would call it returns what it would pass.
* Objects that update their fields in the program are classes here (`DataLoader`, `Cache`,
  `Chart`, `Matrix`, `CalcResults`, `LegacyReportConsumer`, `ParticipantConsumer`, `EnergySheet`,
  `Repository`, `Store`); their ghost fields record the lines they received.
* No lemma relies on automatic induction (`{:induction false}`): every step is in its body.
* A map keyed by column numbers is a sequence. Walking a map visits its keys in any order.

## Modules

| file | content |
|---|---|
| Outcomes, Rounding, Calendar, Weeks, RowId | result types, six-decimal rounding, the calendar and its ISO weeks, row ids |
| CounterPoints, Store | the counterpoint table and the slot table |
| RawLine, Codes, Loader, QueryEngine | wide lines, OBIS codes, the streaming group-by, gap filling |
| Buckets, Tally, Reports, ReportTheorems, RawQuery | the bucketer, the reports and what relates them, raw series |
| Matrices, Allocation, CalcResults | matrices, allocation, the accumulators of a period |
| Periods, ChartPositions | queried periods, and which days share a chart position |
| LegacyReport, Participants, ParticipantTheorems, ParticipantReport | the two accounting reports |
| TableReports, TableCounts, LegacyQuery | from the rows of the table to the energy reports, their counts, and the legacy report of a tenant |
| DateCells, SheetExport, SheetImport, SheetRoundTrip, SheetTheorems | the spreadsheet, written and read back |
| ExportTheorems, ImportTheorems | what a sheet shows and what is read from it, told by texts, columns and codes |
| ImportedTables | what an import leaves in the slot table and in the counterpoint table |
| Pipeline | from the rows of the table to the participant report and the spreadsheet |

## Findings

Where the code falls short of what it is for, the model keeps the code and states the exact
condition, with an input.

* A row id reads back exactly when its year fits four characters (`RowId.RowIdRoundTrip`); the
  first moment of the year 10000 is an input for which it does not (`WideYearIsRefused`).
* The legacy report asks for the empty community, under which no metering point can be registered.
  In every state of every history of the counterpoint table each of its vectors, in the summary and
  in every intermediate report, is a single zero, whatever the slot table holds
  (`LegacyQuery.TenantReport`). What it would show of a listed community is
  `LegacySummaryShowsTable`.
* Cutting a membership window between two days loses the energy of the cut day when the first line
  of that day is after midnight, and only that (`ParticipantTheorems.SplitKeepsEnergyIff`, with an
  input in `LateStartLosesEnergy`). On the quarter-hour grid only the first day of a stream can
  start so (`OnlyFirstIsLost`); off the grid every day can.
* Where no day is lost, the published summaries of a producer's two windows add up exactly when the
  energies they count round together, that is, when what rounding adds to both of them is itself
  within half a millionth (`ParticipantTheorems.SplitKeepsSummaryIff`). Readings of six decimals
  always do (`SixDecimalsKeepSummary`); `HalvesRoundUp` is an input that does not.
* A half-year chart shows the ISO week it starts in and the week with the next number (1 after 53)
  at one position, and keeps all other weeks apart; a quarter's chart does the same, but also takes
  the weeks 53 and 1 for one, so that up to three weeks share its first position
  (`ChartPositions.WeeksSharePosition`). Two weeks do share a position in every quarter, and in
  every half-year that does not start in week 52 (`SomeWeeksCollideIff`). Inputs are
  `TwoWeeksCollide`, `ThreeWeeksCollide` and `NoWeeksCollide`. The positions themselves are the
  weeks since the first one, except that after the end of an ISO year a half-year counts one more
  when that year had 52 weeks, and a quarter one less when it had 53 (`WeeklyPositionIsWeeks`).
* A monthly chart counts the first slot of the next month, which the query reads too, on the first
  day of the month (`ChartPositions.MonthlyPositions` and `MonthlyPositionIsDay`, with an input in
  `EndSlotOnFirstDay`).
* All legacy queries but the yearly one read the first slot after the period. Every line is in a
  report of its own day or month exactly when the table holds no such slot
  (`LegacyReport.OwnReportIff` with `LegacyQuery.AnswerIsInQuery`). Otherwise, in a monthly report,
  a second half-year and a fourth quarter the slot joins the last report, which is then named 1; in
  the other half-years and quarters it gets an extra report for the month after the period
  (`EndSlotReport`). The reports still are the runs of one number each exactly in the latter case,
  or when the slot is the only line (`PartitionIff`). `DecemberTakesJanuary` is an input.
* A spreadsheet brings the metering points back under their names exactly when no name has
  surrounding blanks, less than four bytes, is "total" in any case, or stands there twice
  (`SheetTheorems.NamesComeBackIff`, with names in `SomeNames`, a lost one in `ShortNameIsLost` and
  a doubled one in `RepeatedRequest`). No name stands there twice exactly when the request repeats
  no existing metering point (`SheetExport.DistinctWhenAskedOnce`); the raw query drops such
  repetitions, the export does not. An export without a readable data row is refused by the import
  (`ExportThenImport`), an empty one whatever its metering points are called
  (`EmptyExportIsRefused`).
* A value imported into a table that already holds slots is found again exactly when the table holds
  no code for the same slot and moment that sorts after the plain one
  (`ImportedTables.ImportedLookup`); the second codes of the slots do (`SecondCodesHide`).
* Importing a sheet keeps source indices unique exactly when no other metering point of the community
  holds an index that the sheet gives out (`ImportedTables.ImportKeepsUniqueIff`, with an input in
  `ImportClashes`): the sheet numbers its metering points from 0 and upserts them.

## Model

| member | source | states |
|---|---|---|
| Rounding.RoundFixed | internal/calc/utils.go:26-29 | the result has six decimals and is a nearest one, ties going away from zero |
| Rounding.RoundIsDetermined | internal/calc/utils.go:26-29 | that description leaves no other result |
| Rounding.RoundKeepsMicro | internal/calc/matrix.go:121-129 | rounding a six-decimal value changes nothing, so repeated rounding in place is harmless |
| Calendar.DateRoundTrip | internal/queryengine/loader.go:196-215 | breaking a day number into a date undoes building it, for every valid date |
| Calendar.KnownDays | internal/queryengine/loader.go:196-215 | literal day numbers, which fix where the calendar starts and its leap years |
| Calendar.MonthLengths | internal/queryengine/loader.go:196-215 | the twelve months have 31, 28 or 29, 31, 30, ... days |
| Calendar.NextYear | internal/queryengine/loader.go:196-215 | the next year starts after 365 days, or 366 in a leap year |
| Calendar.SameYearDay | internal/calc/participant.go:46-52 | two moments less than a day apart are on the same calendar day exactly when their day numbers within the year agree |
| RowId.RowIdRoundTrip | internal/queryengine/loader.go:196-215 | scanning a printed row id gives the moment back exactly when the year fits four characters, and is an error otherwise |
| RowId.WideYearIsRefused | internal/queryengine/loader.go:196-215 | an input: the year 10000 is printed with five digits and its row id is refused |
| RowId.RowIdAsText | internal/queryengine/loader.go:196-201 | an input: 22:45 on 31 December 2023 has the row id "CP/2023/12/31/22/45" |
| CounterPoints.DirectionRoundTrip | internal/counterpoint/counterpoint.go:40-61 | parsing a printed direction gives it back |
| CounterPoints.DirectionsByText | internal/counterpoint/counterpoint.go:40-61 | every text, by the direction it is read as, and the two texts that are written |
| CounterPoints.Repository.EnsureForMeter | internal/counterpoint/counterpoint.go:217-252 | creates a missing row with an index one above the largest of its scope, leaves an existing row alone, refuses empty keys |
| CounterPoints.EnsuredRow | internal/counterpoint/counterpoint.go:217-252 | the created row carries the direction, the day of the call at both ends of its period, and the metering point as name |
| CounterPoints.Repository.Delete | internal/counterpoint/counterpoint.go:301-311 | removes exactly the one row |
| CounterPoints.Repository.Upsert | internal/counterpoint/counterpoint.go:159-192 | writes the row with the index it is given, over an existing one too, and refuses empty keys |
| CounterPoints.StepKeepsUnique | internal/counterpoint/counterpoint.go:159-252 | a step keeps indices unique within (tenant, community, direction) exactly when it does not upsert an index that another metering point holds, and changes no row that stays but the upserted one |
| CounterPoints.HistoryKeepsUnique | internal/counterpoint/counterpoint.go:217-252 | indices are unique in every state of every history of EnsureForMeter and Delete from the empty table |
| CounterPoints.HistoryIsUniqueIff | internal/counterpoint/counterpoint.go:159-252 | over histories with upserts all states are unique exactly when no step upserts an index that another metering point of the scope holds |
| CounterPoints.SurvivorKeepsRow | internal/counterpoint/counterpoint.go:217-252 | a row that stays in the table from one state to a later one, and is not upserted in between, keeps its index |
| CounterPoints.NoCommunityNoMeters | internal/counterpoint/counterpoint.go:159-299 | in every state of every history a listing of the empty community is empty |
| CounterPoints.ListingIsDistinct | internal/counterpoint/counterpoint.go:273-299 | a listing of such a table never gives two metering points the same block |
| Store.LastWriteWins | internal/store/store.go:80-91 | after a sequence of upserts a cell holds the last value written to it, and every other cell is untouched |
| Store.Store.UpsertSlots | internal/store/store.go:93-126 | for every batch length and set of refused chunks the table is the old one with a prefix of the batch applied; success applies all of it, and failure stops at the border of the first refused chunk |
| Store.ReplayAfterPrefix | internal/store/store.go:93-126 | a failed prefix followed by the whole batch equals the batch alone |
| Store.ReplayAfterAttempts | internal/store/store.go:93-126 | so does any number of failed attempts of any lengths |
| RawLine.QovIsJoin | internal/queryengine/types.go:121-129 | joining qualities is the least upper bound of a total order on all integers in which 1 is lowest |
| RawLine.QovLaws | internal/queryengine/types.go:121-129 | it is commutative, associative, idempotent and has the identity 1 |
| RawLine.JoinIsLargest | internal/queryengine/types.go:121-129 | the joined quality of a list is 1 when nothing else occurs in it and otherwise the largest that is not 1 |
| RawLine.JoinIsOrderFree | internal/queryengine/types.go:121-129 | the quality of a collection of lines does not depend on their order |
| Codes.CodeRoundTrip | internal/queryengine/codes.go:39-61 | the plain code of a slot is read back into that slot |
| Codes.CodesByText | internal/queryengine/codes.go:39-61 | for every text: it feeds a slot exactly when, trimmed, it is one of the nine code texts written out for that slot |
| Codes.TrimIsMiddle | internal/queryengine/codes.go:63-65 | trimming takes runs of white space off both ends, all of it, and nothing else |
| Loader.CellsAreDisjoint | internal/queryengine/loader.go:160-189 | different metering points or slots never share a cell when their blocks are distinct |
| Loader.CellsOfHistory | internal/queryengine/loader.go:61-75 | in every history of the counterpoint table without a clashing upsert the map from (metering point, slot) to cells is injective and in bounds |
| Loader.LookupIsGreatest | internal/queryengine/loader.go:18-24 | for rows sorted by moment, metering point and code the looked-up row is the feeding one with the greatest code |
| Loader.DataLoader.constructor | internal/queryengine/loader.go:41-77 | the index maps hold each listed counterpoint, and the counts are the smallest that cover every source index |
| Loader.DataLoader.PlaceCell | internal/queryengine/loader.go:160-189 | a row changes exactly the cell and quality of its owner's slot, or nothing when meter or code are unknown |
| Loader.DataLoader.Emit | internal/queryengine/loader.go:113-155 | the streaming group-by gives one line per moment with a row, in order, each cell holding the row last in meter-code order for its slot, or nothing |
| Loader.TableIsUnique | internal/queryengine/loader.go:113-155 | the rows alone determine those lines, moment by moment and cell by cell |
| QueryEngine.FillIsPadding | internal/queryengine/engine.go:91-117 | filling gaps keeps the real lines unchanged and in order and puts only empty lines between them |
| QueryEngine.FillSteps | internal/queryengine/engine.go:102-112 | delivered lines start and end with the real ones and follow each other in less than half an hour |
| QueryEngine.FillLines | internal/queryengine/engine.go:102-112 | every delivered line is a real one or a filler at a moment without one, strictly between the first and the last |
| QueryEngine.FillCompletesGrid | internal/queryengine/engine.go:91-117 | on the quarter-hour grid each slot from the first to the last is delivered exactly once |
| QueryEngine.FillDelivers | internal/queryengine/engine.go:91-117 | every delivered line, filler or not, shows the table at its moment |
| QueryEngine.Query | internal/queryengine/engine.go:58-125 | the answer is the filled table with the start aligned to the first line's day; it is an error exactly when there are no rows or a year is too wide |
| QueryEngine.AnswerIsStream | internal/queryengine/engine.go:127-166 | an answer is what every report function relies on: ascending, sized to the topology, readable ids, starting on the context's first day |
| QueryEngine.ContextIsWholeDays | internal/queryengine/engine.go:127-166 | a context starts at the midnight before the first line and ends with the last slot of the last day |
| Buckets.LabelBounds | internal/queryengine/engine.go:199-215 | a label ends the interval of its width that holds the moment |
| Buckets.CatchUp | internal/queryengine/engine.go:199-215 | the catch-up jump over a gap lands on the label of the next line |
| Buckets.Cache.Init | internal/queryengine/engine.go:177-184 | a fresh bucketer has one empty bucket, due one width after the start |
| Buckets.Cache.AddToCache | internal/queryengine/engine.go:217-242 | adds every cell and joins every quality of the line |
| Buckets.Cache.CacheLine | internal/queryengine/engine.go:199-215 | for every width above 0 and every non-decreasing stream the flushed buckets and the open one are the groups by floor((ts - start) / width), with strictly rising labels and at most the first one empty |
| Buckets.GroupingIsUnique | internal/queryengine/engine.go:177-242 | that grouping is determined by the lines alone |
| Tally.EntriesSumToAll | internal/queryengine/functions.go:191-331 | the entries of a chart without repeated keys sum to the lines they were made of |
| Tally.RegroupAmount | internal/queryengine/functions.go:139-187 | grouping twice gives each coarse key the sum of its lines |
| Tally.RegroupQov | internal/queryengine/functions.go:391-408 | and the join of their qualities |
| Tally.PaddingChangesNothing | internal/queryengine/loader.go:100-107 | empty lines leave sums, qualities and counts of every key as they were |
| Reports.Accumulate | internal/queryengine/functions.go:381-418 | consumed, allocated and distributed energy grow by the cells 3b, 3b + 1 and 3b + 2 of every consumer b, produced energy by the cells 2b of every producer; qualities are joined, counts raised to the line's active participants, the surplus is recomputed |
| Reports.RunIntraDay | internal/queryengine/functions.go:139-187 | the 24 entries are the hours of the hourly buckets, for every stream |
| Reports.RunLoadCurve | internal/queryengine/functions.go:191-243 | one entry per day that has a bucket, holding that day's lines |
| Reports.RunLineCurve | internal/queryengine/functions.go:250-331 | one entry per ISO week or per month that has a line, holding exactly its lines |
| Reports.RunSummary | internal/queryengine/functions.go:334-372 | the four totals are the sums of slots 0, 1 and 2 of the consumers and slot 0 of the producers over all lines; the quality is joined; surplus and counts stay 0 |
| ReportTheorems.BucketsKeepTotal | internal/queryengine/engine.go:199-242 | bucketing of any width and any regrouping of the buckets keep every total |
| ReportTheorems.ReportsAgree | internal/queryengine/functions.go:139-331 | consumed, allocated, distributed and produced agree between the 24 hours, the days, the weeks, the months and the summary of one stream |
| ReportTheorems.SurplusAtLeastNet | internal/queryengine/functions.go:409-418 | summed surplus is never below max(0, produced - distributed) of the totals |
| ReportTheorems.SurplusGrowsWithDetail | internal/queryengine/functions.go:191-331 | summed surplus never shrinks from the total to months and from months to days |
| ReportTheorems.BucketedQovIsLineQov | internal/queryengine/functions.go:391-408 | the quality of a bucketed entry is the one-level join over its lines, however they were bucketed |
| ReportTheorems.GapFillInvisibleInHours | internal/queryengine/engine.go:102-112 | the intraday report of the filled stream is that of the bare stream |
| ReportTheorems.GapFillInvisibleInDays | internal/queryengine/engine.go:102-112 | filling keeps every entry of the load curve and adds only all-zero ones |
| ReportTheorems.GapFillInvisibleInCurves | internal/queryengine/engine.go:102-112 | the same for the weekly and monthly curves |
| ReportTheorems.GapFillInvisibleInSummary | internal/queryengine/functions.go:334-372 | the summary of the filled stream is that of the bare stream |
| ReportTheorems.GapFillInvisibleInAggregate | internal/queryengine/functions.go:84-136 | for every width the aggregated series of the filled stream holds every reading of the bare one, and beside those only readings of zero with quality 1 |
| ReportTheorems.GapFillInvisibleInSeries | internal/queryengine/functions.go:23-80 | the same for the plain series, whose added readings stand at moments without a line |
| RawQuery.DedupTargets | internal/queryengine/api.go:128-139 | each target once, at the place of its first occurrence |
| RawQuery.DedupKeepsOrder | internal/queryengine/api.go:128-139 | the deduplicated targets stand in the order of their first occurrences |
| RawQuery.RunDefault | internal/queryengine/functions.go:23-80 | the result holds one series per known target, with every delivered line |
| RawQuery.RunAggregate | internal/queryengine/functions.go:84-136 | for every width above 0 the series are those of the grouping of the stream |
| RawQuery.AggregateIsSum | internal/queryengine/functions.go:121-136 | an aggregated reading is the sum and the joined quality of the lines of its interval |
| RawQuery.SeriesIsLookup | internal/queryengine/functions.go:23-52 | a series has strictly rising moments, covers every row's moment, and each value is the looked-up row or 0 |
| RawQuery.QueryRawData | internal/queryengine/api.go:82-119 | for every sorted table and target list, repeated targets included, the answer holds exactly the known targets, each with its lookup series |
| Matrices.Matrix.Add | internal/calc/matrix.go:90-118 | cell-wise sum with the shorter matrix padded; refuses only different strides, and never writes the summand's buffer |
| Matrices.Matrix.RoundToFixed | internal/calc/matrix.go:121-129 | every cell is rounded in the same buffer |
| Matrices.Multiply | internal/calc/matrix.go:133-147 | the triple loop computes the matrix product |
| Matrices.PickSelectsColumn | internal/calc/allocate.go:18-32 | multiplying by a column of picks selects that column |
| Allocation.AllocDynamicV2 | internal/calc/allocate.go:18-32 | returns the coverage and share columns of the consumers and the profit column of the producers, in fresh buffers |
| Allocation.AllocDynamic2 | internal/calc/allocate.go:36-70 | the share column holds the consumers' readings scaled by the ratio of the totals; the two allocated columns hold the readings of their side scaled so and capped at the reading |
| Allocation.AllocationBalances | internal/calc/allocate.go:36-70 | for non-negative readings the allocations sum to the smaller total and nobody gets more than the own reading |
| Allocation.AllocationIsProportional | internal/calc/allocate.go:36-70 | allocations are pairwise proportional to the readings |
| Allocation.BothSidesBalance | internal/calc/allocate.go:36-70 | consumers and producers are allocated the same amount |
| Allocation.PartsBalance | internal/calc/allocate.go:36-70 | for non-negative readings the uncapped shares of one side sum to the other side's total, or to 0 when the side itself has nothing |
| Allocation.PartsAreProportional | internal/calc/allocate.go:36-70 | the uncapped shares are pairwise proportional to the readings |
| CalcResultsModel.ConvertLineToMatrix | internal/calc/utils.go:15-23 | the slices become matrices of at least one and just enough whole rows, padded with zeros |
| CalcResultsModel.CalcResults.AppendResults | internal/calc/results.go:31-70 | a line of any length adds its columns to the five accumulators and the produced sum, and is itself only read |
| CalcResultsModel.CalcResults.SumIntermediate | internal/calc/results.go:72-100 | adds another accumulator without writing to its buffers |
| CalcResultsModel.AccumulatorIsColumnSums | internal/calc/results.go:31-70 | after any lines of any lengths the accumulators hold, per counterpoint, the sums of its columns |
| CalcResultsModel.AccumulatorWidth | internal/calc/results.go:18-26 | lines of the topology's width keep the accumulators at one row per counterpoint |
| LegacyReport.LegacyReportConsumer.HandleLine | internal/calc/period_legacy.go:35-48 | a line joins the open report or closes it, and no report published earlier changes although it shares its buffers with an accumulator |
| LegacyReport.LegacyReportConsumer.Publish | internal/calc/period_legacy.go:55-65 | the published report shows the rounded totals of its lines, is named by the period of its last line and goes into the running summary |
| LegacyReport.SwitchFollowsStream | internal/calc/period_legacy.go:84-165 | inside the period a report closes exactly when the day or month number changes, and the counter is always that of the latest line, also where it is only bumped by one |
| LegacyReport.NumberStep | internal/calc/period_legacy.go:84-165 | between neighbouring lines the number never falls, and a month rises by at most one |
| LegacyReport.NumberByCalendar | internal/calc/period_legacy.go:84-165 | the number of a moment is the days since the first of its month plus one, or its calendar month |
| LegacyReport.PartitionIff | internal/calc/period_legacy.go:84-165 | for every stream a query delivers the reports are the runs of the stream, one per number in rising order, exactly when no slot after the period has joined the last of them |
| LegacyReport.EndSlotReport | internal/calc/period_legacy.go:84-165 | the slot after the period either joins the last report, which is then named 1, or gets a report of its own for the month after the period; the other reports stay |
| LegacyReport.OwnReportIff | internal/calc/period_legacy.go:84-165 | every line is in a report of its own day or month of the period exactly when the stream has no slot after the period |
| LegacyReport.DecemberTakesJanuary | internal/calc/period_legacy.go:104-124 | an input: in a second half-year a December and a January slot form one report, named 1 |
| LegacyReport.RunLegacy | internal/calc/period_legacy.go:70-194 | the reports hold the stream, group by group; each shows the rounded totals of its lines and the period of its last one, the summary is exactly their sum, and the groups are the runs of the stream under the condition of PartitionIff |
| LegacyReport.SummaryIsExact | internal/calc/period_legacy.go:183-191 | the final rounding of the summary changes nothing |
| LegacyReport.SummaryIsNear | internal/calc/period_legacy.go:55-65 | each row of the summary lies within half a millionth per report of the unrounded column sums |
| Participants.ParticipantConsumer.FlushDay | internal/calc/participant.go:72-125 | whatever order the metering points are visited in, each entry whose window covers the day gets it once, and both totals move by exactly what the summaries move |
| Participants.ParticipantConsumer.AppendIntermediate | internal/calc/participant.go:127-146 | in each curve of the direction the position of the day holds the old value plus the day's (rounded for consumers), all other positions are as they were and the curve is just long enough; the other curves are untouched |
| Participants.CurvesAreDetermined | internal/calc/participant.go:127-146 | that description leaves no other curves |
| Participants.ParticipantConsumer.HandleLine | internal/calc/participant.go:35-54 | a line whose day number differs closes the day; otherwise it joins the open day |
| Participants.ParticipantConsumer.HandleEnd | internal/calc/participant.go:56-70 | the last day is flushed and every summary rounded, charts and totals are not |
| ParticipantReport.EnsureMeterReports | internal/calc/engine.go:140-156 | missing reports become empty ones, others stay |
| ParticipantReport.EnergyReportV2 | internal/calc/engine.go:46-135 | the days partition the stream, one group per calendar day for a gap-filled one; each entry is the fold of its days; the report's total consumption is the sum of the entries' consumption and exactly that of the published summaries, its total production the sum of their production, within half a millionth per entry of the published ones |
| ParticipantTheorems.ChartSumsToSummary | internal/calc/participant.go:72-146 | after any run a consumer's chart sums to its published summary exactly, a producer's within half a millionth |
| ParticipantTheorems.ChartIsGrouping | internal/calc/participant.go:127-146 | each chart position grows by exactly the counted days that fall on it; which those are is PositionIsCalendar, and the values are ParticipantChartShowsTable |
| ChartPositions.YearlyPositionIsMonth | internal/calc/engine.go:84-93 | in a yearly report the position of a day is its month |
| ChartPositions.MonthlyPositionIsDay | internal/calc/engine.go:60-63 | in a monthly report the position of a day is the days since the first plus one, and 1 for the slot that ends the query |
| ChartPositions.WeeklyPositionIsWeeks | internal/calc/engine.go:64-83 | in a half-year or quarter the position is the number of weeks since the first, at least 1; after the end of the ISO year a half-year counts one more when that year had 52 weeks, a quarter one less when it had 53 |
| ChartPositions.PositionIsCalendar | internal/calc/engine.go:59-93 | for every period and moment in it the position is the one told by days, weeks and months |
| Weeks.SameWeekIffMonday | internal/calc/engine.go:64-83 | two moments are in one ISO week exactly when their Mondays agree |
| Weeks.FirstWeek | internal/calc/engine.go:64-83 | the 4th of January is in week 1 of its year |
| Weeks.WeekDifference | internal/calc/engine.go:64-83 | less than a year apart, two week numbers differ by the weeks between, less the weeks of the year that ended |
| ChartPositions.MonthlyPositions | internal/calc/engine.go:60-63 | in a monthly report two moments share a position exactly when they are on one day, or one is the slot that ends the query and the other is on the first day |
| ChartPositions.EndSlotOnFirstDay | internal/calc/engine.go:60-63 | an input: the first slot of February is counted on 1 January |
| ChartPositions.WeeksSharePosition | internal/calc/engine.go:64-83 | days of two ISO weeks share a position exactly when, in a half-year, the weeks are the first and the next number, or, in a quarter, both are among the up to three weeks of the first position or are 53 and 1 |
| ChartPositions.SomeWeeksCollideIff | internal/calc/engine.go:64-83 | some two weeks share a position in every such period except a half-year that starts in week 52 |
| ChartPositions.TwoWeeksCollide | internal/calc/engine.go:64-73 | an input: weeks 26 and 27 of a second half-year |
| ChartPositions.ThreeWeeksCollide | internal/calc/engine.go:74-83 | an input: weeks 53, 1 and 2 of a first quarter |
| ChartPositions.NoWeeksCollide | internal/calc/engine.go:64-73 | an input: a half-year that starts in week 52 and has week 1 at position 2 |
| Periods.PeriodDays | internal/calc/engine.go:59-93 | segments of any number carry whole years over, and a period runs from the first of its first month to the first of the month after it; a year's query ends with its last slot |
| ParticipantTheorems.TotalsAreSummaries | internal/calc/participant.go:72-125 | the published summaries sum to what they held before plus what all entries are due, exactly for consumption, within half a millionth per entry for the rest |
| ParticipantTheorems.WindowCountsDays | internal/calc/participant.go:81-85 | a window counts the days it holds, except a last day that starts after midnight |
| ParticipantTheorems.DueIsEnergy | internal/calc/participant.go:100-121 | what an entry gets is its metering point's energy over the counted days, exactly for producers, within half a millionth per day for consumers |
| ParticipantTheorems.SplitKeepsEnergy | internal/calc/participant.go:35-125 | on a grid stream that starts at midnight the two parts of a window that is cut between two days get what the whole window gets |
| ParticipantTheorems.SplitKeepsEnergyIff | internal/calc/participant.go:35-125 | for any stream of days they do exactly when the cut day does not start after midnight, or its rounded contribution is zero |
| ParticipantTheorems.OnlyFirstIsLost | internal/calc/participant.go:81-85 | on the quarter-hour grid only the first day of a stream can be the one that is lost |
| ParticipantTheorems.LateStartLosesEnergy | internal/calc/participant.go:81-85 | an input for which the parts get nothing and the whole gets all |
| ParticipantTheorems.SplitKeepsTotals | internal/calc/participant.go:72-125 | cutting one entry of a response leaves the report's totals unchanged |
| ParticipantTheorems.SplitKeepsSummary | internal/calc/participant.go:56-70 | where no day is lost the published summaries of the parts add up exactly for a consumer, within one millionth for a producer |
| ParticipantTheorems.SplitKeepsSummaryIff | internal/calc/participant.go:56-70 | for a producer they add up exactly when the energies of the two parts round together |
| ParticipantTheorems.SixDecimalsKeepSummary | internal/calc/participant.go:56-70 | for readings of six decimals they always add up |
| ParticipantTheorems.HalvesRoundUp | internal/calc/participant.go:56-70 | an input: half a millionth on each of two days is published as one millionth for the whole and for each part |
| DateCells.DateCellRoundTrip | internal/xlsximport/xlsximport.go:340-366 | a printed moment reads back exactly when its year fits four digits; otherwise the cell is not taken for a date |
| DateCells.DatesByText | internal/xlsximport/xlsximport.go:340-366 | which cells are taken for dates, for every text: day, month, year and time at fixed places, or digits, points and commas |
| DateCells.LineOfPieces | internal/xlsximport/xlsximport.go:345-348 | for every such text the moment is built from day, month, year, hour, minute and second in that order, and there is none when they are no date or no time of day |
| DateCells.MomentAsText | internal/excelexport/energy_sheet.go:121-136 | an input: "31.12.2023 22:45:00" |
| DateCells.SerialIsNearest | internal/xlsximport/xlsximport.go:349-356 | a serial date is the quarter-hour of UTC nearest to it, counted from 44927 as the start of 2023-01-01 |
| DateCells.SerialSteps | internal/xlsximport/xlsximport.go:349-356 | one day more is 86400 seconds more, and 44927 is the first moment of 2023-01-01 UTC |
| DateCells.NumberCellIsSerial | internal/xlsximport/xlsximport.go:349-356 | a cell of digits, points and commas that reads as a number is that serial date |
| DateCells.NewYearCell | internal/xlsximport/xlsximport.go:349-356 | an input: the cell "44927" |
| SheetExport.BuildRunnerContext | internal/excelexport/runner.go:135-205 | the columns are the requested metering points that exist, consumers first, each in request order, with the periods of the listing; the names are exactly those of the request, for each metering point the one in its last entry |
| SheetExport.AddHeaderV2 | internal/excelexport/sheet_helpers.go:12-34 | every column shows the value of the metering point and slot it belongs to |
| SheetExport.AddLine | internal/excelexport/sheet_helpers.go:37-78 | every column shows its slot, rounded, for the qualities 1, 2 and 3 and is blank otherwise, and the spare columns are blank |
| SheetExport.ColumnsAreBlocks | internal/excelexport/sheet_helpers.go:12-78 | a column and its (metering point, slot) determine each other |
| SheetExport.EnergySheet.InitSheet | internal/excelexport/energy_sheet.go:23-119 | six titled header rows from row 2 |
| SheetExport.NamesShown | internal/excelexport/energy_sheet.go:29-32 | every cell of the name row of a sheet made from a request is the name in the request's last entry for the column's metering point |
| ExportTheorems.LabelTexts | internal/excelexport/energy_sheet.go:23-119 | the five metercode labels written out |
| ExportTheorems.HeaderByColumn | internal/excelexport/energy_sheet.go:23-119 | by counting three columns for each consumer and then two for each producer: titles, metering point, direction, period and label above each column |
| SheetExport.EnergySheet.HandleLine | internal/excelexport/energy_sheet.go:121-136 | the n-th line becomes row 10 + n; a broken row id writes nothing |
| SheetExport.ExportSheet | internal/excelexport/runner.go:76-115 | the sheet holds the header and one row per line, and exists exactly when every row id reads back |
| ExportTheorems.DataByColumn | internal/excelexport/sheet_helpers.go:37-78 | the cell of row n in the column of a metering point's slot is the looked-up row of the table at the n-th moment, rounded, when its quality is 1, 2 or 3, blank for other qualities, and 0 where the table has none |
| SheetImport.BuildCpRecords | internal/xlsximport/xlsximport.go:224-319 | the records are a function of the header alone, whatever order the map of metering points is walked in |
| SheetImport.SortByTotal | internal/xlsximport/xlsximport.go:283-293 | sorting by the Total column keeps the members and orders them strictly |
| SheetImport.ImportFile | internal/xlsximport/xlsximport.go:89-181 | header rows, skipped rows and data rows are dispatched by their first cell; the header counts as it stands at the first data row |
| ImportTheorems.TitlesByText | internal/xlsximport/xlsximport.go:108-137 | every first cell, by the kind of row it makes, with the eighteen titles written out |
| ImportTheorems.HeaderIsLastRows | internal/xlsximport/xlsximport.go:108-133 | for every sheet the header holds, under each title, the last row with it |
| ImportTheorems.RecordsFromHeader | internal/xlsximport/xlsximport.go:138-144 | the metering points are those of the header as it stands at the first row of dates |
| ImportTheorems.FailsForHeader | internal/xlsximport/xlsximport.go:138-144 | an import fails for its header exactly when names, directions or labels are missing at the first row of dates |
| ImportTheorems.OwnersByText | internal/xlsximport/xlsximport.go:238-281 | the metering point a column counts for, for every header: the trimmed name under its conditions, or none |
| ImportTheorems.LettersInBytes | internal/xlsximport/xlsximport.go:240-243 | inputs: letters outside ASCII count as two or more of the four bytes |
| ImportTheorems.LabelsByWord | internal/xlsximport/xlsximport.go:368-383 | every label, by the first of the words it contains |
| ImportTheorems.RecordReads | internal/xlsximport/xlsximport.go:224-319 | for every header a record reads the last column of its name under each label, and takes direction and period from the first |
| ImportTheorems.TotalsAreRecorded | internal/xlsximport/xlsximport.go:283-316 | every name with a Total column has a record |
| ImportTheorems.SlotsByCode | internal/xlsximport/xlsximport.go:185-219 | the slots of a record and a row are its cells under the five plain codes written out |
| ImportTheorems.SlotsComeFromRows | internal/xlsximport/xlsximport.go:134-153 | for every sheet the slots are those of its rows of dates under the imported metering points, and no others |
| ImportTheorems.NumbersByText | internal/xlsximport/xlsximport.go:385-404 | blank, unreadable and absent cells count as 0, others as their number |
| ImportTheorems.NewYearRow | internal/xlsximport/xlsximport.go:349-356 | in every sheet a row that starts with the cell "44927" stores the Total of each metering point at the first moment of 2023 UTC |
| SheetRoundTrip.LabelsClassify | internal/xlsximport/xlsximport.go:368-383 | every exported metercode label, upper-cased, is recognised as what it stands for |
| SheetRoundTrip.UnitsAreFaithful | internal/xlsximport/xlsximport.go:385-397 | a way of showing and reading numbers that keeps six decimals exists, as the round trip assumes |
| SheetRoundTrip.HeaderRoundTrip | internal/xlsximport/xlsximport.go:224-319 | decoding an exported header gives each metering point back, its columns where the layout put them, numbered by its rank in export order |
| SheetTheorems.ExportThenImport | internal/xlsximport/xlsximport.go:89-219 | importing an exported sheet gives every exported metering point and, under its name, code and moment, every exported value rounded to six decimals, blank cells as 0 |
| SheetTheorems.PeriodsComeBack | internal/excelexport/energy_sheet.go:68-92 | a period comes back as whole days, clipped to the exported range |
| SheetTheorems.NamesComeBackIff | internal/xlsximport/xlsximport.go:240-243 | the names come back in order exactly when every name is one the import accepts and stands there once |
| SheetTheorems.RepeatedRequest | internal/excelexport/runner.go:158-170 | an input: a request that lists a metering point twice gives two blocks, of which at most one record comes back |
| SheetExport.DistinctWhenAskedOnce | internal/excelexport/runner.go:158-170 | the columns belong to distinct metering points exactly when the request repeats none that exists |
| SheetTheorems.SomeNames | internal/xlsximport/xlsximport.go:240-243 | inputs: one accepted name, and a short, a padded and a reserved one that are not |
| SheetTheorems.ShortNameIsLost | internal/xlsximport/xlsximport.go:224-319 | an input: a sheet whose one metering point has a name of three bytes names none |
| SheetTheorems.EmptyExportIsRefused | internal/xlsximport/xlsximport.go:155-158 | an export without lines is an error of the import, for every list of metering points |
| SheetTheorems.NumberingIsCanonical | internal/xlsximport/xlsximport.go:275-317 | for every header the records stand in Total-column order, each numbered by the records of its direction before it, and read only columns of their own name |
| SheetTheorems.NumbersAreGapless | internal/xlsximport/xlsximport.go:295-317 | each direction is numbered 0, 1, 2, ... without gaps |
| SheetTheorems.ColumnsAreNotShared | internal/xlsximport/xlsximport.go:238-281 | a column that is read is read by one record, in one of the roles Total, share and coverage |
| SheetTheorems.ImportedBlocksAreDistinct | internal/queryengine/loader.go:61-75 | imported metering points never collide in the wide line |
| SheetTheorems.ReloadedLine | internal/queryengine/loader.go:160-189 | a line loaded from the imported slots holds Total, Share and Coverage (Total and Profit) in the block of the new index, with the exported values |
| Pipeline.AnswerHasSmallSteps | internal/queryengine/engine.go:102-112 | every answered query satisfies what the day and month switches rely on |
| Pipeline.ParticipantReportShowsTable | internal/calc/engine.go:46-135 | by the names of the fields: consumption, allocation and utilization of a consumer are its slots 0, 1 and 2 of the table summed over the counted days, each day rounded; production and allocation of a producer its slots 0 and 1, rounded once; the other fields are 0 |
| Pipeline.ParticipantChartShowsTable | internal/calc/participant.go:127-146 | by the names of the curves: each position holds those slots over the counted days that the calendar puts there |
| Pipeline.CountedIsNear | internal/calc/participant.go:100-121 | the rounded days are within half a millionth per day of the energy in the table |
| LegacyQuery.AnswerIsInQuery | internal/calc/period_legacy.go:70-179 | what a query delivers of rows in the period's range is what the partition results are stated for, and it ends with the slot after the period exactly when the table has a row there |
| LegacyQuery.ReportOver | internal/calc/period_legacy.go:167-194 | over any listing: an error exactly without rows or with a too wide year, else one report per group of the filled table and their sum |
| LegacyQuery.LegacySummaryShowsTable | internal/calc/period_legacy.go:181-194 | for a listed community, which this call does not ask for, by the names of the fields: consumed, shared and allotted energy are slots 0, 1 and 2 of a consumer, produced and distributed energy slots 0 and 1 of a producer, each the sum of the rounded reports |
| LegacyQuery.ReportShowsPoint | internal/calc/period_legacy.go:55-65 | the same for one report: each field is the rounded sum of its slot over the lines of the report |
| LegacyQuery.RoundedIsNear | internal/calc/period_legacy.go:55-65 | the rounded reports add up to within half a millionth per report of the energy in the table |
| LegacyQuery.LegacyTotalShowsTable | internal/calc/period_legacy.go:181-194 | the total produced is slot 0 of all producers over all delivered moments |
| LegacyQuery.TenantReport | internal/calc/period_legacy.go:179 | the call as it is: in every state of every history, whatever the rows, each vector of the summary and of every report is one zero and nothing is produced |
| TableReports.ShownSlots | internal/queryengine/functions.go:381-408 | a slot summed over a delivered line is the sum of the looked-up rows of that slot at its moment, over all metering points of the direction |
| TableReports.SummaryShowsTable | internal/queryengine/functions.go:334-372 | the summary shows what the table holds over all delivered moments: consumed, allocated and distributed energy as slots 0, 1 and 2 of the consumers, produced energy as slot 0 of the producers, and the joined qualities of their slots 0 |
| TableReports.WeeksShowTable | internal/queryengine/functions.go:250-290 | each entry of the weekly curve shows, in the same terms, what the table holds at the moments with one Monday |
| TableReports.MonthsShowTable | internal/queryengine/functions.go:301-331 | each entry of the monthly curve, at the moments of one month of one year |
| TableReports.DaysShowTable | internal/queryengine/functions.go:191-243 | each entry of the load curve shows, in the same terms, what the table holds on its date, although it was bucketed |
| TableReports.HoursShowTable | internal/queryengine/functions.go:139-187 | the i-th entry of the intraday report shows, in the same terms, what the table holds in the i-th hour of the UTC days |
| TableReports.AggregateShowsTable | internal/queryengine/functions.go:84-136 | value and quality of an aggregated reading are, slot by slot, the sum and the join of the looked-up rows over the width that ends with its moment |
| TableCounts.CurveCounts | internal/queryengine/functions.go:391-412 | an entry of a weekly or monthly curve counts the most metering points with a nonzero row at one of its moments |
| TableCounts.BucketCounts | internal/queryengine/functions.go:391-412 | an entry of the intraday report or load curve counts the most metering points with a nonzero sum over one of its buckets |
| ImportedTables.ImportedLookup | internal/queryengine/loader.go:160-189 | after importing an export into any table a value is looked up exactly when the table held no later code that feeds the slot at that moment |
| ImportedTables.SecondCodesHide | internal/queryengine/codes.go:39-61 | inputs: the second code of a slot is such a code |
| ImportedTables.PutMeters | internal/xlsximport/xlsximport.go:160-173 | the records are upserted one after the other; an empty tenant or community is refused before anything is written |
| ImportedTables.ImportedPoints | internal/xlsximport/xlsximport.go:160-173 | afterwards each record has its row, with its direction, index and period, and no other row has changed |
| ImportedTables.ImportKeepsUniqueIff | internal/xlsximport/xlsximport.go:160-173 | the table stays unique exactly when no metering point of the community that the sheet does not name holds an index the sheet gives out |
| ImportedTables.ImportClashes | internal/xlsximport/xlsximport.go:160-173 | an input: two metering points of the community end up with index 0 |
| Pipeline.SheetCarriesTable | internal/excelexport/runner.go:76-115 | exporting an answer, importing the sheet into any table without a later code for the slot and looking a value up again finds what the first table held, rounded, under the new index |

## Left out

- HTTP, GraphQL, authentication, configuration, metrics, logging, MQTT and migrations: plumbing that no property here depends on.
- SQL, pgx and TimescaleDB aggregates: the tables are maps, a query is its sorted rows, and statements and chunks are atomic, so two EnsureForMeter calls that interleave under read-committed isolation are not covered.
- The order of the database's collation: rows are sorted by the characters of metering point and code.
- AES, gzip, base64, JSON and the cell encoding of the spreadsheet library: messages are decoded, a sheet is a table of cells, and the round trip assumes that the library keeps six-decimal numbers.
- Daylight saving: one fixed offset, so the repeated hour and the drift of 24-hour buckets do not occur.
- Floating point: sums are exact, and NaN and infinities do not exist.
- Slots that carry seconds, widths below a minute, and aggregate widths of 0 or less, for which the bucketer divides by zero.
- Leading blanks that scanning a row id would skip, and reading the id back inside each report: the accounting consumers take the moment of the line.
- The branch of matrix addition for a matrix without elements, which no caller reaches, and the branches of the accumulators for missing matrices.
- Period strings, display names and the grouping of meter entries under participants: the entries of a report are one list of values, so two entries that are the same object are not modelled.
- WeeklyCurve and MonthlyCurve are one class with a switch, as they differ only in the key of a line.
- The four period codes stand for the second letter of the request's code; parsing that letter and the segment is not modelled.
- `checkQoV`, the QoV log sheet and the Summary sheet: the first reads qualities without the stride of a block, and the last mixes positions and source indices, so nothing is claimed about them.
- Sheet styles, column widths and number formats.
- Upper: upper-cases the Latin-1 letters only; other letters with case do not occur in the labels.
- SerialMoment: a serial date is taken exactly, without the cut to nanoseconds or the overflow of very large serials.
- EqualFold: folds ASCII letters only, which is all that "total" and "mm" can fold to.
- Errors of the database and of writing the file are not modelled; an import is what it hands to the repository and the store.
